/** The merged env file read back as text: internal/integrate/integrate.go:394-442. Values are written
    unchecked, so a value with newlines puts lines of its own into the file. */
module EnvText {
  import opened Common
  import opened Text
  import opened EnvFile

  function FirstLine(v: string): string { SplitLines(v)[0] }

  /** The lines of a text after its first. */
  function Later(v: string): seq<string> { SplitLines(v)[1..] }

  function FirstLines(kv: Settings): Settings { map k | k in kv :: FirstLine(kv[k]) }

  /** A line some value brings into the file besides its assignment. */
  ghost predicate Stray(kv: Settings, ln: string) { exists key :: key in kv && ln in Later(kv[key]) }

  lemma {:induction false} LaterEmpty(v: string)
    ensures Later(v) == [] <==> '\n' !in v
  {
    if v != "" {
      LaterEmpty(v[1..]);
      assert v == [v[0]] + v[1..];
    }
  }

  lemma AssignSplits(k: string, kv: Settings)
    requires k in kv && ValidEnvKey(k)
    ensures SplitLines(Assign(k, kv)) == [Assign(k, FirstLines(kv))] + Later(kv[k])
  {
    var a := k + "=";
    forall i | 0 <= i < |a| ensures a[i] != '\n' {
      if i < |k| { assert KeyChar(k[i]); }
    }
    SplitAfter(a, kv[k]);
  }

  // ---- Filtering re-split lines --------------------------------------------------

  function Heads(lines: seq<string>): seq<string> {
    seq(|lines|, i requires 0 <= i < |lines| => FirstLine(lines[i]))
  }

  function LaterLines(lines: seq<string>): seq<string> {
    if lines == [] then [] else Later(lines[0]) + LaterLines(lines[1..])
  }

  lemma {:induction false} LaterMember(lines: seq<string>, ln: string)
    ensures ln in LaterLines(lines) <==> exists i :: 0 <= i < |lines| && ln in Later(lines[i])
  {
    if lines != [] {
      LaterMember(lines[1..], ln);
      if ln in LaterLines(lines[1..]) {
        var i :| 0 <= i < |lines[1..]| && ln in Later(lines[1..][i]);
        assert ln in Later(lines[i + 1]);
      }
      if exists i :: 1 <= i < |lines| && ln in Later(lines[i]) {
        var i :| 1 <= i < |lines| && ln in Later(lines[i]);
        assert ln in Later(lines[1..][i - 1]);
      }
    }
  }

  /** b filters to what a filters to, plus what more filters to. */
  ghost predicate Adds(a: seq<string>, b: seq<string>, more: seq<string>, p: string -> bool) {
    var x, y, z := Filter(a, p), Filter(b, p), Filter(more, p);
    Subseq(x, y) && |y| == |x| + |z| && (z == [] ==> x == y)
  }

  lemma {:induction false} ResplitCounts(lines: seq<string>, p: string -> bool)
    ensures Adds(Heads(lines), Resplit(lines), LaterLines(lines), p)
  {
    if lines == [] {
      assert Heads(lines) == [];
    } else {
      var first, later, t := [FirstLine(lines[0])], Later(lines[0]), lines[1..];
      ResplitCounts(t, p);
      AddsInFront(first, later, Heads(t), Resplit(t), LaterLines(t), p);
      assert Heads(lines) == first + Heads(t);
      assert Resplit(lines) == first + later + Resplit(t);
    }
  }

  lemma AddsInFront(first: seq<string>, later: seq<string>, a: seq<string>, b: seq<string>, more: seq<string>,
                    p: string -> bool)
    requires Adds(a, b, more, p)
    ensures Adds(first + a, first + later + b, later + more, p)
  {
    FilterConcat(first, a, p);
    FilterConcat(first + later, b, p);
    FilterConcat(first, later, p);
    FilterConcat(later, more, p);
    CountsStep(Filter(first, p), Filter(later, p), Filter(a, p), Filter(b, p), Filter(more, p));
  }

  lemma CountsStep(head: seq<string>, later: seq<string>, a: seq<string>, b: seq<string>, rest: seq<string>)
    requires Subseq(a, b) && |b| == |a| + |rest| && (rest == [] ==> a == b)
    ensures Subseq(head + a, head + later + b) && |head + later + b| == |head + a| + |later + rest|
    ensures later + rest == [] ==> head + a == head + later + b
  {
    SubseqLater(a, later, b);
    SubseqBoth(head, a, later + b);
    assert head + (later + b) == head + later + b;
    assert later == [] ==> head + later == head;
  }

  /** Re-splitting adds lines satisfying p exactly when some later line satisfies p. */
  lemma ResplitFilter(lines: seq<string>, p: string -> bool)
    ensures var a, b := Filter(Heads(lines), p), Filter(Resplit(lines), p);
            Subseq(a, b) && (a == b <==> forall ln :: ln in LaterLines(lines) ==> !p(ln))
  {
    ResplitCounts(lines, p);
    var more := Filter(LaterLines(lines), p);
    if more == [] {
      forall ln | ln in LaterLines(lines) ensures !p(ln) { FilterMember(LaterLines(lines), p, ln); }
    } else {
      FilterMember(LaterLines(lines), p, more[0]);
    }
  }

  // ---- The written lines, and their first lines ------------------------------------

  /** A written line is an old line or an assignment. */
  ghost predicate Written(ln: string, kv: Settings) { '\n' !in ln || exists k :: k in kv && ln == Assign(k, kv) }

  ghost predicate PlainLines(lines: seq<string>) { forall ln :: ln in lines ==> '\n' !in ln }

  lemma {:induction false} FirstPassWritten(lines: seq<string>, kv: Settings, del: set<string>)
    requires PlainLines(lines)
    ensures forall ln :: ln in FirstPass(lines, kv, del) ==> Written(ln, kv)
  {
    if lines != [] {
      assert lines[0] in lines;
      FirstPassWritten(lines[1..], kv, del);
    }
  }

  lemma MergeWritten(lines: seq<string>, kv: Settings, del: set<string>, order: seq<string>)
    requires PlainLines(lines) && NewKeys(order, lines, kv, del)
    ensures forall ln :: ln in FirstPass(lines, kv, del) + Appended(order, kv) ==> Written(ln, kv)
    ensures forall ln :: ln in MergeLines(lines, kv, del, order) ==> Written(ln, kv)
  {
    var all := FirstPass(lines, kv, del) + Appended(order, kv);
    FirstPassWritten(lines, kv, del);
    forall ln | ln in Appended(order, kv) ensures Written(ln, kv) {
      var i :| 0 <= i < |order| && ln == Appended(order, kv)[i];
      assert order[i] in order;
    }
    var blanks := TrimTailSplits(all);
    forall ln | ln in TrimTail(all) ensures ln in all { assert ln in TrimTail(all) + blanks; }
  }

  lemma AssignNotBlank(k: string, v: string)
    requires ValidEnvKey(k)
    ensures TrimSpace(k + "=" + v) != ""
  {
    AssignHasKey(k, v);
  }

  lemma WrittenHead(ln: string, kv: Settings, del: set<string>)
    requires Clean(kv, del) && Written(ln, kv)
    ensures TrimSpace(FirstLine(ln)) == "" <==> TrimSpace(ln) == ""
  {
    if '\n' !in ln {
      SplitOne(ln);
    } else {
      var k :| k in kv && ln == Assign(k, kv);
      AssignSplits(k, kv);
      AssignNotBlank(k, kv[k]);
      AssignNotBlank(k, FirstLine(kv[k]));
    }
  }

  lemma {:induction false} TrimTailHeads(lines: seq<string>, kv: Settings, del: set<string>)
    requires Clean(kv, del) && forall ln :: ln in lines ==> Written(ln, kv)
    ensures Heads(TrimTail(lines)) == TrimTail(Heads(lines))
  {
    if lines != [] {
      var rest, ln := lines[..|lines| - 1], lines[|lines| - 1];
      assert ln in lines;
      WrittenHead(ln, kv, del);
      assert Heads(lines)[..|lines| - 1] == Heads(rest);
      TrimTailHeads(rest, kv, del);
    }
  }

  lemma RewriteHeads(ln: string, kv: Settings, del: set<string>)
    requires Clean(kv, del) && '\n' !in ln
    ensures Heads(Rewrite(ln, kv, del)) == Rewrite(ln, FirstLines(kv), del)
  {
    SplitOne(ln);
    var key := EnvLineKey(ln);
    if key in kv { AssignSplits(key, kv); }
  }

  lemma {:induction false} FirstPassHeads(lines: seq<string>, kv: Settings, del: set<string>)
    requires Clean(kv, del) && PlainLines(lines)
    ensures Heads(FirstPass(lines, kv, del)) == FirstPass(lines, FirstLines(kv), del)
    ensures Seen(lines, kv, del) == Seen(lines, FirstLines(kv), del)
  {
    if lines != [] {
      assert lines[0] in lines;
      RewriteHeads(lines[0], kv, del);
      FirstPassHeads(lines[1..], kv, del);
      HeadsConcat(Rewrite(lines[0], kv, del), FirstPass(lines[1..], kv, del));
    }
  }

  lemma HeadsConcat(a: seq<string>, b: seq<string>)
    ensures Heads(a + b) == Heads(a) + Heads(b)
  {
  }

  lemma AppendedHeads(order: seq<string>, kv: Settings, del: set<string>)
    requires Clean(kv, del) && forall k :: k in order ==> k in kv
    ensures Heads(Appended(order, kv)) == Appended(order, FirstLines(kv))
  {
    forall i | 0 <= i < |order| ensures FirstLine(Assign(order[i], kv)) == Assign(order[i], FirstLines(kv)) {
      assert order[i] in order;
      AssignSplits(order[i], kv);
    }
  }

  /** The first lines of what is written are what a merge of the values' first lines writes. */
  lemma MergeHeads(lines: seq<string>, kv: Settings, del: set<string>, order: seq<string>)
    requires Clean(kv, del) && PlainLines(lines) && NewKeys(order, lines, kv, del)
    ensures NewKeys(order, lines, FirstLines(kv), del)
    ensures Heads(MergeLines(lines, kv, del, order)) == MergeLines(lines, FirstLines(kv), del, order)
  {
    MergeWritten(lines, kv, del, order);
    FirstPassHeads(lines, kv, del);
    AppendedHeads(order, kv, del);
    HeadsConcat(FirstPass(lines, kv, del), Appended(order, kv));
    TrimTailHeads(FirstPass(lines, kv, del) + Appended(order, kv), kv, del);
  }

  lemma KeyWritten(lines: seq<string>, kv: Settings, del: set<string>, order: seq<string>, k: string)
    requires Clean(kv, del) && NewKeys(order, lines, kv, del) && k in kv
    ensures Assign(k, kv) in MergeLines(lines, kv, del, order)
  {
    var out := MergeLines(lines, kv, del, order);
    LinesBind(lines, kv, del, order, k);
    FilterMember(out, IsFor(k), Filter(out, IsFor(k))[0]);
  }

  /** Every later line of every value is in the file, and nothing else is besides the first lines. */
  lemma MergeStrays(lines: seq<string>, kv: Settings, del: set<string>, order: seq<string>, ln: string)
    requires Clean(kv, del) && PlainLines(lines) && NewKeys(order, lines, kv, del)
    ensures ln in LaterLines(MergeLines(lines, kv, del, order)) <==> Stray(kv, ln)
  {
    var out := MergeLines(lines, kv, del, order);
    LaterMember(out, ln);
    MergeWritten(lines, kv, del, order);
    if i :| 0 <= i < |out| && ln in Later(out[i]) {
      LaterEmpty(out[i]);
      assert out[i] in out;
      var k :| k in kv && out[i] == Assign(k, kv);
      AssignSplits(k, kv);
    }
    if Stray(kv, ln) {
      var k :| k in kv && ln in Later(kv[k]);
      KeyWritten(lines, kv, del, order, k);
      AssignSplits(k, kv);
      var i :| 0 <= i < |out| && out[i] == Assign(k, kv);
      assert ln in Later(out[i]);
    }
  }

  // ---- What the file says after a merge -----------------------------------------------

  lemma SplitBody(out: seq<string>)
    ensures SplitLines(Body(out)) == (if out == [] then [""] else Resplit(out)) + [""]
  {
    if out == [] {
      assert JoinLines(out) + "\n" == "\n" && "\n"[1..] == "";
    } else {
      JoinSnoc(out, "");
      assert JoinLines(out) + "\n" + "" == JoinLines(out) + "\n";
      SplitJoinAny(out + [""]);
      ResplitConcat(out, [""]);
      assert [""][1..] == [];
    }
  }

  lemma MergeFilter(lines: seq<string>, kv: Settings, del: set<string>, order: seq<string>, p: string -> bool)
    requires Clean(kv, del) && PlainLines(lines) && NewKeys(order, lines, kv, del)
    ensures var out := MergeLines(lines, kv, del, order);
            var kept := Filter(MergeLines(lines, FirstLines(kv), del, order), p);
            && Subseq(kept, Filter(Resplit(out), p))
            && (Filter(Resplit(out), p) == kept <==> forall ln :: Stray(kv, ln) ==> !p(ln))
  {
    MergeHeads(lines, kv, del, order);
    ResplitFilter(MergeLines(lines, kv, del, order), p);
    forall ln ensures ln in LaterLines(MergeLines(lines, kv, del, order)) <==> Stray(kv, ln) {
      MergeStrays(lines, kv, del, order, ln);
    }
  }

  /** Some value brings a line of its own that assigns k. */
  ghost predicate Leaks(kv: Settings, k: string) { exists ln :: Stray(kv, ln) && EnvLineKey(ln) == k }

  lemma FileFilter(out: seq<string>, k: string)
    requires k != ""
    ensures Filter(SplitLines(Body(out)), IsFor(k)) == Filter(Resplit(out), IsFor(k))
  {
    SplitBody(out);
    var body := if out == [] then [""] else Resplit(out);
    FilterConcat(body, [""], IsFor(k));
    assert EnvLineKey("") == "" && [""][1..] == [];
    assert Filter([""], IsFor(k)) == [];
  }

  /** The file as a map. The bindings of k, in order, are those a merge should leave, interspersed with the
      lines that values bring: a set key is bound to the first line of its value, a deleted key is gone and
      any other key keeps what it had. They are exactly those if and only if no value leaks k. */
  lemma MergeBinds(text: string, kv: Settings, del: set<string>, body: string, k: string) returns (kept: seq<string>)
    requires Clean(kv, del) && Merged(text, kv, del, body) && k != ""
    ensures var r := Filter(SplitLines(body), IsFor(k)); Subseq(kept, r) && (r == kept <==> !Leaks(kv, k))
    ensures if k in kv then kept != [] && forall ln :: ln in kept ==> ln == Assign(k, FirstLines(kv))
            else if k in del then kept == []
            else kept == Filter(SplitLines(text), IsFor(k))
  {
    var lines := SplitLines(text);
    var order :| NewKeys(order, lines, kv, del) && body == Body(MergeLines(lines, kv, del, order));
    kept := Filter(MergeLines(lines, FirstLines(kv), del, order), IsFor(k));
    MergeFilter(lines, kv, del, order, IsFor(k));
    FileFilter(MergeLines(lines, kv, del, order), k);
    MergeHeads(lines, kv, del, order);
    LinesBind(lines, FirstLines(kv), del, order, k);
  }

  /** Every line that is about no set or deleted key, comments included, survives in its place, except blank
      lines at the very end; and no other such line appears, apart from the end of the file, if and only if
      no value brings one. */
  lemma OtherLinesSurvive(text: string, kv: Settings, del: set<string>, body: string)
    returns (kept: seq<string>, blanks: seq<string>, now: seq<string>)
    requires Clean(kv, del) && Merged(text, kv, del, body)
    ensures Filter(SplitLines(text), Untouched(kv.Keys, del)) == kept + blanks
    ensures forall b :: b in blanks ==> TrimSpace(b) == ""
    ensures Filter(SplitLines(body), Untouched(kv.Keys, del)) == now + (if body == "\n" then ["", ""] else [""])
    ensures Subseq(kept, now)
    ensures now == kept <==> forall ln :: Stray(kv, ln) ==> EnvLineKey(ln) in kv || EnvLineKey(ln) in del
  {
    var lines := SplitLines(text);
    var order :| NewKeys(order, lines, kv, del) && body == Body(MergeLines(lines, kv, del, order));
    var out := MergeLines(lines, kv, del, order);
    now := Filter(Resplit(out), Untouched(kv.Keys, del));
    kept, blanks := OthersKept(lines, kv, del, order);
    TrimTailAgain(FirstPass(lines, kv, del) + Appended(order, kv));
    BodyEnd(out, kv, del);
  }

  lemma OthersKept(lines: seq<string>, kv: Settings, del: set<string>, order: seq<string>)
    returns (kept: seq<string>, blanks: seq<string>)
    requires Clean(kv, del) && PlainLines(lines) && NewKeys(order, lines, kv, del)
    ensures Filter(lines, Untouched(kv.Keys, del)) == kept + blanks
    ensures forall b :: b in blanks ==> TrimSpace(b) == ""
    ensures var now := Filter(Resplit(MergeLines(lines, kv, del, order)), Untouched(kv.Keys, del));
            && Subseq(kept, now)
            && (now == kept <==> forall ln :: Stray(kv, ln) ==> EnvLineKey(ln) in kv || EnvLineKey(ln) in del)
  {
    var p := Untouched(kv.Keys, del);
    MergeHeads(lines, kv, del, order);
    blanks := OthersWritten(lines, FirstLines(kv), del, order);
    assert FirstLines(kv).Keys == kv.Keys;
    kept := Filter(MergeLines(lines, FirstLines(kv), del, order), p);
    MergeFilter(lines, kv, del, order, p);
    assert forall ln :: !p(ln) <==> EnvLineKey(ln) in kv || EnvLineKey(ln) in del;
  }

  lemma BodyEnd(out: seq<string>, kv: Settings, del: set<string>)
    requires Clean(kv, del) && TrimTail(out) == out
    ensures Filter(SplitLines(Body(out)), Untouched(kv.Keys, del))
         == Filter(Resplit(out), Untouched(kv.Keys, del)) + (if Body(out) == "\n" then ["", ""] else [""])
  {
    var p := Untouched(kv.Keys, del);
    SplitBody(out);
    assert EnvLineKey("") == "" && "" !in kv && p("");
    assert [""][1..] == [] && ["", ""][1..] == [""];
    if out == [] {
      assert Resplit(out) == [] && Filter(["", ""], p) == ["", ""];
    } else {
      FilterConcat(Resplit(out), [""], p);
      JoinOneBlank(out);
    }
  }

  lemma JoinOneBlank(out: seq<string>)
    requires out != [] && TrimTail(out) == out
    ensures Body(out) != "\n"
  {
    if |out| > 1 {
      assert |JoinLines(out)| >= 1;
    } else {
      assert out == [out[0]] && out[0] != "";
    }
    assert |Body(out)| == |JoinLines(out)| + 1;
  }

  /** The value "x", newline, "B=y" brings an assignment to B. */
  lemma TwoLineValue()
    ensures var kv: Settings := map["A" := "x\nB=y"];
            Clean(kv, {}) && Stray(kv, "B=y") && EnvLineKey("B=y") == "B" && Leaks(kv, "B") && TrimSpace("B=y") != ""
  {
    var kv: Settings := map["A" := "x\nB=y"];
    assert "x" + "\n" + "B=y" == kv["A"] && "B" + "=" + "y" == "B=y";
    SplitConcat("x", "B=y");
    SplitOne("x");
    SplitOne("B=y");
    assert Later(kv["A"]) == ["B=y"];
    assert ValidEnvKey("A") && ValidEnvKey("B");
    AssignHasKey("B", "y");
    AssignNotBlank("B", "y");
  }

  lemma {:induction false} ResplitMember(lines: seq<string>, ln: string)
    ensures ln in Resplit(lines) <==> ln in Heads(lines) || ln in LaterLines(lines)
  {
    if lines != [] {
      ResplitMember(lines[1..], ln);
      assert SplitLines(lines[0]) == [FirstLine(lines[0])] + Later(lines[0]);
      assert Heads(lines) == [FirstLine(lines[0])] + Heads(lines[1..]);
    }
  }

  lemma {:induction false} SplitFirst(v: string)
    ensures FirstLine(v) == v <==> '\n' !in v
  {
    if '\n' !in v {
      SplitOne(v);
    } else {
      assert '\n' !in FirstLine(v);
    }
  }

  /** A set key is bound, and only to its whole new value, if and only if the value has one line and every
      line any value brings for that key says the same. */
  lemma ValueBinds(text: string, kv: Settings, del: set<string>, body: string, k: string)
    requires Clean(kv, del) && Merged(text, kv, del, body) && k in kv
    ensures var r := Filter(SplitLines(body), IsFor(k));
            && r != []
            && ((forall ln :: ln in r ==> ln == Assign(k, kv)) <==>
                  '\n' !in kv[k] && forall ln :: Stray(kv, ln) && EnvLineKey(ln) == k ==> ln == Assign(k, kv))
  {
    var lines := SplitLines(text);
    var order :| NewKeys(order, lines, kv, del) && body == Body(MergeLines(lines, kv, del, order));
    var out, head := MergeLines(lines, kv, del, order), Assign(k, FirstLines(kv));
    var r := Filter(Resplit(out), IsFor(k));
    FileFilter(out, k);
    forall ln ensures ln in r <==> ln == head || (Stray(kv, ln) && EnvLineKey(ln) == k) {
      KeyLines(lines, kv, del, order, k, ln);
    }
    assert head in r;
    SplitFirst(kv[k]);
    assert head == Assign(k, kv) <==> FirstLine(kv[k]) == kv[k] by {
      assert head[|k| + 1..] == FirstLine(kv[k]) && Assign(k, kv)[|k| + 1..] == kv[k];
    }
  }

  lemma KeyLines(lines: seq<string>, kv: Settings, del: set<string>, order: seq<string>, k: string, ln: string)
    requires Clean(kv, del) && PlainLines(lines) && NewKeys(order, lines, kv, del) && k in kv
    ensures ln in Filter(Resplit(MergeLines(lines, kv, del, order)), IsFor(k)) <==>
              ln == Assign(k, FirstLines(kv)) || (Stray(kv, ln) && EnvLineKey(ln) == k)
  {
    var out := MergeLines(lines, kv, del, order);
    var heads := MergeLines(lines, FirstLines(kv), del, order);
    FilterMember(Resplit(out), IsFor(k), ln);
    ResplitMember(out, ln);
    MergeStrays(lines, kv, del, order, ln);
    MergeHeads(lines, kv, del, order);
    LinesBind(lines, FirstLines(kv), del, order, k);
    FilterMember(heads, IsFor(k), ln);
    KeyWritten(lines, FirstLines(kv), del, order, k);
    AssignHasKey(k, FirstLine(kv[k]));
  }
}
