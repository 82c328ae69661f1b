/** How facts reach the model and how it reads them back: the noise filter and the fact entries of the
    system prompt, internal/task/runner.go:91-130, 353-417, and the fact_inspect tool,
    internal/api/mcp/server.go:1064-1112. */
module FactPrompt {
  import opened Common
  import opened Text
  import opened EventStore

  const KEEP_NEEDLES: seq<string> :=
    ["error", "failed", "fatal", "eresolve", "enoent", "eaccess", "etimedout", "exit code", "exit_code", "exit status"]
  const DROP_PREFIXES: seq<string> := ["npm warn deprecated", "npm warn ", "npm warn"]

  // ---- The noise filter --------------------------------------------------------

  function TrimIndent(s: string): string {
    if s != "" && (s[0] == ' ' || s[0] == '\t') then TrimIndent(s[1..]) else s
  }

  predicate HasNeedle(s: string) { exists k :: 0 <= k < |KEEP_NEEDLES| && Contains(s, KEEP_NEEDLES[k]) }
  predicate HasNoisePrefix(s: string) { exists k :: 0 <= k < |DROP_PREFIXES| && HasPrefix(s, DROP_PREFIXES[k]) }

  predicate Hidden(ln: string) {
    var lower := Lower(TrimIndent(ln));
    !HasNeedle(lower) && HasNoisePrefix(lower)
  }

  function Kept(lines: seq<string>): seq<string> {
    if lines == [] then []
    else
      var ln := lines[|lines| - 1];
      Kept(lines[..|lines| - 1]) + (if Hidden(ln) then [] else [ln])
  }

  function HiddenCount(lines: seq<string>): nat {
    if lines == [] then 0 else HiddenCount(lines[..|lines| - 1]) + (if Hidden(lines[|lines| - 1]) then 1 else 0)
  }

  const FILTERED: string := " lines filtered as "
  const AS_NOISE: string := "npm-warn noise \U{2014} "
  const CALL: string := "call `fact_inspect"
  const SEE_FULL: string := "` to see full)"

  /** What stands between the parenthesis that opens the hint and the one that opens the call. */
  function HintHead(hidden: nat): string { Itoa(hidden) + (FILTERED + (AS_NOISE + CALL)) }

  function Hint(hidden: nat, index: nat): string { "(" + HintHead(hidden) + "(" + (Itoa(index) + ")" + SEE_FULL) }

  function Render(kept: seq<string>, hidden: nat, index: nat): string {
    var out := JoinLines(kept);
    if hidden == 0 then out
    else if out == "" then Hint(hidden, index)
    else out + "\n" + Hint(hidden, index)
  }

  /** A fact's text as the prompt shows it. */
  function Shown(text: string, index: nat): string {
    Render(Kept(SplitLines(text)), HiddenCount(SplitLines(text)), index)
  }

  method ContainsAny(s: string, needles: seq<string>) returns (found: bool)
    ensures found <==> exists k :: 0 <= k < |needles| && Contains(s, needles[k])
  {
    for i := 0 to |needles|
      invariant forall k :: 0 <= k < i ==> !Contains(s, needles[k])
    {
      if Contains(s, needles[i]) {
        return true;
      }
    }
    return false;
  }

  method StartsWithAny(s: string, prefixes: seq<string>) returns (found: bool)
    ensures found <==> exists k :: 0 <= k < |prefixes| && HasPrefix(s, prefixes[k])
  {
    for i := 0 to |prefixes|
      invariant forall k :: 0 <= k < i ==> !HasPrefix(s, prefixes[k])
    {
      if HasPrefix(s, prefixes[i]) {
        return true;
      }
    }
    return false;
  }

  /** The keep list, then the drop list, against one line. */
  method IsNoise(ln: string) returns (hidden: bool)
    ensures hidden <==> Hidden(ln)
  {
    var lower := Lower(TrimIndent(ln));
    var isKeep := ContainsAny(lower, KEEP_NEEDLES);
    if isKeep {
      return false;
    }
    hidden := StartsWithAny(lower, DROP_PREFIXES);
  }

  method SplitOffNoise(lines: seq<string>) returns (kept: seq<string>, hidden: nat)
    ensures kept == Kept(lines) && hidden == HiddenCount(lines)
  {
    kept, hidden := [], 0;
    var i := 0;
    while i < |lines|
      invariant 0 <= i <= |lines|
      invariant kept == Kept(lines[..i]) && hidden == HiddenCount(lines[..i])
    {
      KeptNext(lines, i);
      var isNoise := IsNoise(lines[i]);
      if isNoise {
        hidden := hidden + 1;
      } else {
        kept := kept + [lines[i]];
      }
      i := i + 1;
    }
    assert lines[..i] == lines;
  }

  lemma KeptNext(lines: seq<string>, i: nat)
    requires i < |lines|
    ensures Kept(lines[..i + 1]) == if Hidden(lines[i]) then Kept(lines[..i]) else Kept(lines[..i]) + [lines[i]]
    ensures HiddenCount(lines[..i + 1]) == HiddenCount(lines[..i]) + (if Hidden(lines[i]) then 1 else 0)
  {
    assert lines[..i + 1][..i] == lines[..i];
  }

  method FilterFactForPrompt(s: string, index: nat) returns (filtered: string, hiddenLines: nat)
    ensures hiddenLines == HiddenCount(SplitLines(s))
    ensures filtered == Shown(s, index)
  {
    var kept, hidden := SplitOffNoise(SplitLines(s));
    var out := JoinLines(kept);
    if hidden > 0 {
      if out == "" {
        out := Hint(hidden, index);
      } else {
        out := out + "\n" + Hint(hidden, index);
      }
    }
    return out, hidden;
  }

  /** Lines are conserved: every line is kept or counted, kept lines are exactly the lines that are not
      noise, in their order. */
  lemma {:induction false} FilterConserves(lines: seq<string>)
    ensures |Kept(lines)| + HiddenCount(lines) == |lines|
    ensures forall ln :: ln in Kept(lines) <==> ln in lines && !Hidden(ln)
    ensures HiddenCount(lines) == 0 <==> Kept(lines) == lines
  {
    if lines != [] {
      var rest := lines[..|lines| - 1];
      FilterConserves(rest);
      assert lines == rest + [lines[|lines| - 1]];
    }
  }

  /** Leading blanks cannot hide a needle: none of them starts with one. */
  lemma {:induction false} IndentKeepsNeedle(ln: string, p: string)
    requires p != "" && p[0] != ' ' && p[0] != '\t'
    ensures Contains(Lower(TrimIndent(ln)), p) <==> Contains(Lower(ln), p)
  {
    if ln != "" && (ln[0] == ' ' || ln[0] == '\t') {
      IndentKeepsNeedle(ln[1..], p);
      assert Lower(ln)[1..] == Lower(ln[1..]);
      assert Lower(ln)[0] == ln[0];
    }
  }

  /** A line with an error word anywhere in it, in any case, is never hidden. */
  lemma ErrorsNeverHidden(ln: string)
    requires HasNeedle(Lower(ln))
    ensures !Hidden(ln)
  {
    var k :| 0 <= k < |KEEP_NEEDLES| && Contains(Lower(ln), KEEP_NEEDLES[k]);
    IndentKeepsNeedle(ln, KEEP_NEEDLES[k]);
  }

  predicate ErrorWord(s: string) {
    || Contains(s, "error") || Contains(s, "failed") || Contains(s, "fatal") || Contains(s, "eresolve")
    || Contains(s, "enoent") || Contains(s, "eaccess") || Contains(s, "etimedout")
    || Contains(s, "exit code") || Contains(s, "exit_code") || Contains(s, "exit status")
  }

  lemma NeedleIsWord(s: string)
    ensures HasNeedle(s) <==> ErrorWord(s)
  {
    NeedlesAre();
  }

  lemma NeedlesAre()
    ensures |KEEP_NEEDLES| == 10
    ensures KEEP_NEEDLES[0] == "error" && KEEP_NEEDLES[1] == "failed" && KEEP_NEEDLES[2] == "fatal"
    ensures KEEP_NEEDLES[3] == "eresolve" && KEEP_NEEDLES[4] == "enoent" && KEEP_NEEDLES[5] == "eaccess"
    ensures KEEP_NEEDLES[6] == "etimedout" && KEEP_NEEDLES[7] == "exit code"
    ensures KEEP_NEEDLES[8] == "exit_code" && KEEP_NEEDLES[9] == "exit status"
  {
  }

  lemma NoisePrefixIs(s: string)
    ensures HasNoisePrefix(s) <==> HasPrefix(s, "npm warn")
  {
    assert DROP_PREFIXES[2] == "npm warn";
    assert "npm warn" <= DROP_PREFIXES[0] && "npm warn" <= DROP_PREFIXES[1];
  }

  /** The text at k, with nothing but blanks and tabs before it, starts with "npm warn" in any case. */
  predicate WarnsAt(ln: string, k: nat) {
    k <= |ln| && (forall i :: 0 <= i < k ==> ln[i] == ' ' || ln[i] == '\t') && HasPrefix(Lower(ln[k..]), "npm warn")
  }

  lemma {:induction false} WarnsAfterIndent(ln: string)
    ensures HasPrefix(Lower(TrimIndent(ln)), "npm warn") <==> exists k: nat :: WarnsAt(ln, k)
  {
    assert ln[0..] == ln;
    if ln != "" && (ln[0] == ' ' || ln[0] == '\t') {
      WarnsAfterIndent(ln[1..]);
      assert !WarnsAt(ln, 0) by { assert "npm warn"[0] == 'n' && Lower(ln)[0] == ln[0]; }
      forall k: nat ensures WarnsAt(ln, k + 1) <==> WarnsAt(ln[1..], k) {
        if k + 1 <= |ln| {
          assert ln[1..][k..] == ln[k + 1..];
          assert forall i :: 0 <= i < k ==> ln[1..][i] == ln[i + 1];
          assert forall i :: 1 <= i < k + 1 ==> ln[i] == ln[1..][i - 1];
        }
      }
      if exists k: nat :: WarnsAt(ln, k) {
        var k: nat :| WarnsAt(ln, k);
        assert k > 0 && WarnsAt(ln, k - 1 + 1) && WarnsAt(ln[1..], k - 1);
      }
    } else {
      assert HasPrefix(Lower(ln), "npm warn") ==> WarnsAt(ln, 0);
    }
  }

  /** A line is hidden exactly when it starts with "npm warn", blanks and tabs before it and the case of its
      letters aside, and has none of the ten error words anywhere. */
  lemma HiddenIff(ln: string)
    ensures Hidden(ln) <==> (exists k: nat :: WarnsAt(ln, k)) && !ErrorWord(Lower(ln))
  {
    WarnsAfterIndent(ln);
    NoisePrefixIs(Lower(TrimIndent(ln)));
    NeedleIsWord(Lower(ln));
    forall k | 0 <= k < |KEEP_NEEDLES|
      ensures Contains(Lower(TrimIndent(ln)), KEEP_NEEDLES[k]) <==> Contains(Lower(ln), KEEP_NEEDLES[k])
    {
      IndentKeepsNeedle(ln, KEEP_NEEDLES[k]);
    }
  }

  lemma WordsArePlain(c: char)
    requires c == '\n' || c == '('
    ensures c !in FILTERED && c !in AS_NOISE && c !in CALL
  {
  }

  lemma HeadIsPlain(hidden: nat, c: char)
    requires c == '\n' || c == '('
    ensures c !in HintHead(hidden)
  {
    WordsArePlain(c);
    ItoaParses(hidden);
  }

  lemma HintIsOneVisibleLine(hidden: nat, index: nat)
    ensures '\n' !in Hint(hidden, index) && Hint(hidden, index) != ""
    ensures !Hidden(Hint(hidden, index))
  {
    HeadIsPlain(hidden, '\n');
    ItoaParses(index);
    ParenIsVisible(Hint(hidden, index));
  }

  lemma ParenIsVisible(h: string)
    requires h != "" && h[0] == '('
    ensures !Hidden(h)
  {
    assert TrimIndent(h) == h && Lower(h)[0] == '(';
  }

  /** The lines the model sees: the kept ones, then the hint when something was hidden. An empty kept
      text, no line or one empty line, gives way to the hint. */
  lemma ShownLines(lines: seq<string>, index: nat)
    requires lines != [] && forall ln :: ln in lines ==> '\n' !in ln
    ensures var kept, hidden := Kept(lines), HiddenCount(lines);
            SplitLines(Render(kept, hidden, index)) ==
              if hidden == 0 then lines
              else if kept == [] || kept == [""] then [Hint(hidden, index)]
              else kept + [Hint(hidden, index)]
  {
    var kept, hidden := Kept(lines), HiddenCount(lines);
    FilterConserves(lines);
    if hidden == 0 {
      SplitJoin(lines);
    } else {
      HintIsOneVisibleLine(hidden, index);
      if kept == [] || kept == [""] {
        SplitOne(Hint(hidden, index));
      } else {
        JoinIsEmpty(kept);
        JoinSnoc(kept, Hint(hidden, index));
        SplitJoin(kept + [Hint(hidden, index)]);
      }
    }
  }

  lemma JoinIsEmpty(lines: seq<string>)
    requires lines != [] && lines != [""]
    ensures JoinLines(lines) != ""
  {
    if |lines| > 1 {
      assert |JoinLines(lines)| >= 1;
    }
  }

  /** Filtering a filtered fact changes nothing and hides nothing, whatever index it is given. */
  lemma FilterIdempotent(text: string, index: nat, again: nat)
    ensures HiddenCount(SplitLines(Shown(text, index))) == 0
    ensures Shown(Shown(text, index), again) == Shown(text, index)
  {
    var lines := SplitLines(text);
    var shown := SplitLines(Shown(text, index));
    ShownLines(lines, index);
    HintIsOneVisibleLine(HiddenCount(lines), index);
    FilterConserves(lines);
    NoneHidden(shown);
    FilterConserves(shown);
    JoinSplit(Shown(text, index));
  }

  lemma {:induction false} NoneHidden(lines: seq<string>)
    requires forall ln :: ln in lines ==> !Hidden(ln)
    ensures HiddenCount(lines) == 0
  {
    if lines != [] {
      NoneHidden(lines[..|lines| - 1]);
    }
  }

  /** Every line with an error word is still there to be read after filtering. */
  lemma ErrorsAreShown(text: string, index: nat, ln: string)
    requires ln in SplitLines(text) && HasNeedle(Lower(ln))
    ensures ln in SplitLines(Shown(text, index))
  {
    ErrorsNeverHidden(ln);
    FilterConserves(SplitLines(text));
    ShownLines(SplitLines(text), index);
    if ln == "" {
      var k :| 0 <= k < |KEEP_NEEDLES| && Contains(Lower(ln), KEEP_NEEDLES[k]);
    }
  }

  // ---- The prompt ----------------------------------------------------------------

  const PROMPT_FACTS: nat := 40

  datatype Entry = Entry(ts: int, source: string, shown: string)

  /** The prompt's parts; the fixed headings are left out. */
  datatype Prompt = Bare(base: string) | Sections(mission: string, entries: seq<Entry>, base: string)

  function EntryFor(cut: seq<Fact>, i: nat): Entry
    requires i < |cut|
  {
    Entry(cut[i].ts, cut[i].source, Shown(cut[i].text, |cut| - 1 - i))
  }

  /** The entries for the first n facts of the cut, oldest first. */
  function Entries(cut: seq<Fact>, n: nat): (r: seq<Entry>)
    requires n <= |cut|
    ensures |r| == n
  {
    if n == 0 then [] else Entries(cut, n - 1) + [EntryFor(cut, n - 1)]
  }

  lemma {:induction false} EntryAt(cut: seq<Fact>, n: nat, i: nat)
    requires i < n <= |cut|
    ensures Entries(cut, n)[i] == EntryFor(cut, i)
  {
    if i < n - 1 {
      EntryAt(cut, n - 1, i);
    }
  }

  method FactEntries(facts: seq<Fact>) returns (entries: seq<Entry>)
    ensures entries == Entries(Last(PROMPT_FACTS, facts), |Last(PROMPT_FACTS, facts)|)
  {
    var cut := facts;
    if |cut| > PROMPT_FACTS {
      cut := cut[|cut| - PROMPT_FACTS..];
    }
    entries := [];
    for i := 0 to |cut|
      invariant entries == Entries(cut, i)
    {
      var index := |cut| - 1 - i;
      var filtered, hidden := FilterFactForPrompt(cut[i].text, index);
      entries := entries + [Entry(cut[i].ts, cut[i].source, filtered)];
    }
  }

  method ComposeSystemPrompt(base: string, statement: string, facts: seq<Fact>) returns (p: Prompt)
    ensures p.base == base && (p.Bare? <==> statement == "" && facts == [])
    ensures p.Sections? ==>
              p.mission == statement && p.entries == Entries(Last(40, facts), |Last(40, facts)|)
  {
    if statement == "" && |facts| == 0 {
      return Bare(base);
    }
    var entries := FactEntries(facts);
    return Sections(statement, entries, base);
  }

  // ---- fact_inspect ---------------------------------------------------------------

  /** A decoded index member: null, the literal of a JSON number, or anything else. */
  datatype RawIndex = NullIndex | Number(literal: string) | OtherValue

  /** The tool's raw arguments. */
  datatype RawArgs = NotAnObject | NullArgs | ArgsObject(index: Option<RawIndex>)

  datatype Refusal = BadArgs | IndexRequired | NotNonNegative | NoFactAt(index: nat)

  /** A refusal is JSON-RPC error -32602. */
  datatype Answer = InvalidParams(why: Refusal) | Found(fact: Fact)

  /** Decoding null into an int leaves it zero; a literal must be an integer that fits. */
  function DecodeIndex(raw: RawIndex): Option<int> {
    match raw
    case NullIndex => Some(0)
    case Number(literal) => Atoi(literal)
    case OtherValue => None
  }

  function FactInspect(facts: seq<Fact>, args: RawArgs): Answer {
    match args
    case NotAnObject => InvalidParams(BadArgs)
    case NullArgs => InvalidParams(IndexRequired)
    case ArgsObject(None) => InvalidParams(IndexRequired)
    case ArgsObject(Some(raw)) =>
      var index := DecodeIndex(raw);
      if index.None? || index.value < 0 then InvalidParams(NotNonNegative)
      else if index.value >= |facts| then InvalidParams(NoFactAt(index.value))
      else Found(facts[|facts| - 1 - index.value])
  }

  /** The call a hint asks for. */
  function Ask(index: nat): RawArgs { ArgsObject(Some(Number(Itoa(index)))) }

  /** Reads the number out of a hint: what stands between its second '(' and the next ')'. */
  function HintedIndex(hint: string): Option<int> {
    if hint == "" then None
    else
      match IndexOf(hint[1..], '(')
      case None => None
      case Some(open) =>
        var call := hint[1..][open + 1..];
        match IndexOf(call, ')')
        case None => None
        case Some(close) => Atoi(call[..close])
  }

  /** Reads the number of hidden lines out of a hint: what stands between its '(' and the next space. */
  function HintedCount(hint: string): Option<int> {
    if hint == "" then None
    else
      match IndexOf(hint[1..], ' ')
      case None => None
      case Some(end) => Atoi(hint[1..][..end])
  }

  lemma {:induction false} FirstIndex(a: string, c: char, b: string)
    requires c !in a
    ensures IndexOf(a + [c] + b, c) == Some(|a|)
  {
    if a != "" {
      FirstIndex(a[1..], c, b);
      assert (a + [c] + b)[1..] == a[1..] + [c] + b;
    }
  }

  lemma HintReadsBack(hidden: nat, index: nat)
    requires index <= MAX_INT
    ensures HintedIndex(Hint(hidden, index)) == Some(index)
  {
    HeadIsPlain(hidden, '(');
    ItoaParses(index);
    AtoiItoa(index);
    CallReadsBack(HintHead(hidden), Itoa(index), SEE_FULL);
  }

  lemma CountReadsBack(hidden: nat, index: nat)
    ensures HintedCount(Hint(hidden, index)) == Atoi(Itoa(hidden))
  {
    ItoaParses(hidden);
    FilteredStarts();
    NumberReadsBack(Itoa(hidden), FILTERED, AS_NOISE + CALL, Itoa(index) + ")" + SEE_FULL);
  }

  lemma FilteredStarts()
    ensures FILTERED != "" && FILTERED[0] == ' '
  {
  }

  lemma NumberReadsBack(number: string, word: string, more: string, call: string)
    requires ' ' !in number && word != "" && word[0] == ' '
    ensures HintedCount("(" + (number + (word + more)) + "(" + call) == Atoi(number)
  {
    var hint, rest := "(" + (number + (word + more)) + "(" + call, word[1..] + more + "(" + call;
    assert word == [' '] + word[1..];
    assert hint[1..] == number + [' '] + rest;
    FirstIndex(number, ' ', rest);
    assert hint[1..][..|number|] == number;
  }

  lemma CallReadsBack(head: string, number: string, end: string)
    requires '(' !in head && ')' !in number
    ensures HintedIndex("(" + head + "(" + (number + ")" + end)) == Atoi(number)
  {
    var call := number + ")" + end;
    assert ("(" + head + "(" + call)[1..] == head + "(" + call;
    FirstIndex(head, '(', call);
    assert (head + "(" + call)[|head| + 1..] == call;
    FirstIndex(number, ')', end);
    assert call[..|number|] == number;
  }

  lemma AskAnswers(facts: seq<Fact>, n: nat)
    requires |facts| <= MAX_INT
    ensures FactInspect(facts, Ask(n)).Found? <==> n < |facts|
    ensures n < |facts| ==> FactInspect(facts, Ask(n)) == Found(facts[|facts| - 1 - n])
  {
    AtoiItoa(n);
  }

  /** A call with a usable index below the number of facts is answered, with the fact that many before the newest;
      every other call is refused, and a null index reads as 0. */
  lemma InspectAnswersIff(facts: seq<Fact>, args: RawArgs)
    ensures FactInspect(facts, args).Found? <==>
              && args.ArgsObject? && args.index.Some? && DecodeIndex(args.index.value).Some?
              && 0 <= DecodeIndex(args.index.value).value < |facts|
    ensures FactInspect(facts, args).Found? ==>
              FactInspect(facts, args).fact == facts[|facts| - 1 - DecodeIndex(args.index.value).value]
    ensures DecodeIndex(NullIndex) == Some(0) && DecodeIndex(OtherValue) == None
    ensures args.ArgsObject? && args.index.Some? && args.index.value.Number? ==>
              DecodeIndex(args.index.value) == Atoi(args.index.value.literal)
  {
  }

  // ---- Addressing facts as the journal grows ------------------------------------------

  lemma {:induction false} JournalGrows(db: Db, calls: seq<Call>)
    ensures FactsEver(db.log) <= FactsEver(ExecAll(db, calls).log)
  {
    if calls != [] {
      var c := calls[|calls| - 1];
      var mid := ExecAll(db, calls[..|calls| - 1]);
      JournalGrows(db, calls[..|calls| - 1]);
      var end := Exec(mid, c.op, c.now, c.commits);
      if end != mid {
        assert end.log[..|end.log| - 1] == mid.log;
      }
    }
  }

  lemma {:induction false} CallsCompose(db: Db, a: seq<Call>, b: seq<Call>)
    ensures ExecAll(db, a + b) == ExecAll(ExecAll(db, a), b)
  {
    if b == [] {
      assert a + b == a;
    } else {
      CallsCompose(db, a, b[..|b| - 1]);
      assert (a + b)[..|a + b| - 1] == a + b[..|b| - 1];
    }
  }

  /** Counting back from the newest, the n-th fact of a journal is the (n + k)-th once k more are added;
      the bounded table holds it as long as n + k < 100. */
  lemma AgedFact(before: seq<Fact>, after: seq<Fact>, n: nat)
    requires before <= after && n < |before|
    ensures var k := |after| - |before|;
            && (n + k < |Last(MAX_FACTS, after)| <==> n + k < MAX_FACTS)
            && (n + k < MAX_FACTS ==>
                  Last(MAX_FACTS, after)[|Last(MAX_FACTS, after)| - 1 - (n + k)] == before[|before| - 1 - n])
  {
  }

  /** The hint of the i-th prompt entry can be read out of the shown text and names a call that returns
      that very fact; with k more facts in the journal the index grown by k returns it exactly as long as
      it stays below 100. */
  ghost predicate HintReaches(facts: seq<Fact>, later: seq<Fact>, k: nat, i: nat)
    requires i < |Last(PROMPT_FACTS, facts)|
  {
    var cut := Last(PROMPT_FACTS, facts);
    var index := |cut| - 1 - i;
    && HintNames(cut[i].text, index)
    && FactInspect(facts, Ask(index)) == Found(cut[i])
    && (FactInspect(later, Ask(index + k)).Found? <==> index + k < MAX_FACTS)
    && (index + k < MAX_FACTS ==> FactInspect(later, Ask(index + k)) == Found(cut[i]))
  }

  /** If filtering hid a line, the last line shown carries the index and the number of lines hidden. */
  ghost predicate HintNames(text: string, index: nat) {
    var lines, hidden := SplitLines(Shown(text, index)), HiddenCount(SplitLines(text));
    hidden > 0 ==>
      && HintedIndex(lines[|lines| - 1]) == Some(index)
      && (hidden <= MAX_INT ==> HintedCount(lines[|lines| - 1]) == Some(hidden))
  }

  lemma HintIsShown(text: string, index: nat)
    requires index <= MAX_INT
    ensures HintNames(text, index)
  {
    var hidden := HiddenCount(SplitLines(text));
    ShownLines(SplitLines(text), index);
    HintReadsBack(hidden, index);
    CountReadsBack(hidden, index);
    AtoiItoa(hidden);
  }

  /** What a call made now asks for, answered from the journal as it is later. */
  lemma AgedAnswer(before: seq<Fact>, after: seq<Fact>, n: nat)
    requires before <= after && n < |before|
    ensures var answer := FactInspect(Last(MAX_FACTS, after), Ask(n + |after| - |before|));
            && (answer.Found? <==> n + |after| - |before| < MAX_FACTS)
            && (answer.Found? ==> answer == Found(before[|before| - 1 - n]))
  {
    AgedFact(before, after, n);
    AskAnswers(Last(MAX_FACTS, after), n + |after| - |before|);
  }

  lemma TailCountsBack(before: seq<Fact>, i: nat)
    requires i < |Last(PROMPT_FACTS, Last(MAX_FACTS, before))|
    ensures var cut := Last(PROMPT_FACTS, Last(MAX_FACTS, before));
            |cut| - 1 - i < |before| && |cut| <= MAX_FACTS && cut[i] == before[|before| - 1 - (|cut| - 1 - i)]
  {
  }

  lemma JournalHintReaches(before: seq<Fact>, after: seq<Fact>, i: nat)
    requires before <= after
    requires i < |Last(PROMPT_FACTS, Last(MAX_FACTS, before))|
    ensures HintReaches(Last(MAX_FACTS, before), Last(MAX_FACTS, after), |after| - |before|, i)
  {
    var cut := Last(PROMPT_FACTS, Last(MAX_FACTS, before));
    TailCountsBack(before, i);
    HintIsShown(cut[i].text, |cut| - 1 - i);
    var index := |cut| - 1 - i;
    AgedAnswer(before, before, index);
    assert index + |before| - |before| == index < PROMPT_FACTS;
    AgedAnswer(before, after, index);
  }

  /** All facts a history of calls has added, oldest first. */
  function Journal(at: int, calls: seq<Call>): seq<Fact> { FactsEver(ExecAll(Fresh(at), calls).log) }

  function FactTable(at: int, calls: seq<Call>): seq<Fact> { ExecAll(Fresh(at), calls).tables.facts }

  lemma TableIsTail(at: int, calls: seq<Call>)
    ensures FactTable(at, calls) == Last(MAX_FACTS, Journal(at, calls))
  {
    FactsBounded(at, calls);
  }

  lemma HistoryGrows(at: int, calls: seq<Call>, more: seq<Call>)
    ensures Journal(at, calls) <= Journal(at, calls + more)
  {
    CallsCompose(Fresh(at), calls, more);
    JournalGrows(ExecAll(Fresh(at), calls), more);
  }

  /** In any history of calls on the store, and any further calls: each entry of the prompt shows its fact with
      a hint that can be read out of the text, and the hint reaches that fact, now and after the k facts those
      calls add. */
  lemma HintReachesFact(at: int, calls: seq<Call>, more: seq<Call>, i: nat)
    requires i < |Last(PROMPT_FACTS, FactTable(at, calls))|
    ensures Journal(at, calls) <= Journal(at, calls + more)
    ensures HintReaches(FactTable(at, calls), FactTable(at, calls + more),
                        |Journal(at, calls + more)| - |Journal(at, calls)|, i)
    ensures var cut := Last(PROMPT_FACTS, FactTable(at, calls));
            Entries(cut, |cut|)[i] == Entry(cut[i].ts, cut[i].source, Shown(cut[i].text, |cut| - 1 - i))
  {
    EntryAt(Last(PROMPT_FACTS, FactTable(at, calls)), |Last(PROMPT_FACTS, FactTable(at, calls))|, i);
    HistoryGrows(at, calls, more);
    TableIsTail(at, calls);
    TableIsTail(at, calls + more);
    JournalHintReaches(Journal(at, calls), Journal(at, calls + more), i);
  }
}
