/** Merging the same settings a second time: internal/integrate/integrate.go:398-442. */
module EnvTwice {
  import opened Common
  import opened Text
  import opened EnvFile
  import opened EnvText

  /** What a second merge makes of the later lines of a written line. */
  function Extra(ln: string, kv: Settings, del: set<string>): seq<string> { FirstPass(Later(ln), kv, del) }

  function Expander(kv: Settings, del: set<string>): string -> seq<string> { ln => [ln] + Extra(ln, kv, del) }

  function Expand(out: seq<string>, kv: Settings, del: set<string>): seq<string> { FlatMap(out, Expander(kv, del)) }

  /** A second merge writes the line again, in place of its first line. */
  ghost predicate Stable(ln: string, kv: Settings, del: set<string>) { Rewrite(FirstLine(ln), kv, del) == [ln] }

  ghost predicate AllStable(out: seq<string>, kv: Settings, del: set<string>) {
    forall ln :: ln in out ==> Stable(ln, kv, del)
  }

  lemma AssignStable(k: string, kv: Settings, del: set<string>)
    requires Clean(kv, del) && k in kv && k !in del
    ensures Stable(Assign(k, kv), kv, del)
  {
    AssignSplits(k, kv);
    AssignHasKey(k, FirstLine(kv[k]));
  }

  lemma {:induction false} FirstPassStable(lines: seq<string>, kv: Settings, del: set<string>)
    requires Clean(kv, del) && kv.Keys !! del && PlainLines(lines)
    ensures AllStable(FirstPass(lines, kv, del), kv, del)
  {
    if lines != [] {
      assert lines[0] in lines;
      var key := EnvLineKey(lines[0]);
      FirstPassStable(lines[1..], kv, del);
      SplitOne(lines[0]);
      if key in kv { AssignStable(key, kv, del); }
    }
  }

  lemma MergeStable(lines: seq<string>, kv: Settings, del: set<string>, order: seq<string>)
    requires Clean(kv, del) && kv.Keys !! del && PlainLines(lines) && NewKeys(order, lines, kv, del)
    ensures AllStable(MergeLines(lines, kv, del, order), kv, del)
  {
    var first, more := FirstPass(lines, kv, del), Appended(order, kv);
    FirstPassStable(lines, kv, del);
    forall ln | ln in more ensures Stable(ln, kv, del) {
      var i :| 0 <= i < |order| && ln == more[i];
      assert order[i] in order;
      AssignStable(order[i], kv, del);
    }
    var blanks := TrimTailSplits(first + more);
    forall ln | ln in TrimTail(first + more) ensures ln in first + more {
      assert ln in TrimTail(first + more) + blanks;
    }
  }

  function Rewriter(kv: Settings, del: set<string>): string -> seq<string> { ln => Rewrite(ln, kv, del) }

  lemma {:induction false} PassIsFlatMap(lines: seq<string>, kv: Settings, del: set<string>)
    ensures FirstPass(lines, kv, del) == FlatMap(lines, Rewriter(kv, del))
  {
    if lines != [] { PassIsFlatMap(lines[1..], kv, del); }
  }

  lemma FirstPassConcat(a: seq<string>, b: seq<string>, kv: Settings, del: set<string>)
    ensures FirstPass(a + b, kv, del) == FirstPass(a, kv, del) + FirstPass(b, kv, del)
  {
    PassIsFlatMap(a, kv, del);
    PassIsFlatMap(b, kv, del);
    PassIsFlatMap(a + b, kv, del);
    FlatMapConcat(a, b, Rewriter(kv, del));
  }

  lemma {:induction false} SecondPass(out: seq<string>, kv: Settings, del: set<string>)
    requires AllStable(out, kv, del)
    ensures FirstPass(Resplit(out), kv, del) == Expand(out, kv, del)
  {
    if out != [] {
      assert out[0] in out;
      SecondPass(out[1..], kv, del);
      FirstPassConcat(SplitLines(out[0]), Resplit(out[1..]), kv, del);
      assert SplitLines(out[0])[0] == FirstLine(out[0]);
    }
  }

  lemma SecondSeesAll(lines: seq<string>, kv: Settings, del: set<string>, order: seq<string>, all: seq<string>)
    requires Clean(kv, del) && kv.Keys !! del && PlainLines(lines) && NewKeys(order, lines, kv, del)
    requires forall ln :: ln in Resplit(MergeLines(lines, kv, del, order)) ==> ln in all
    ensures Seen(all, kv, del) == kv.Keys
  {
    var out := MergeLines(lines, kv, del, order);
    SeenSound(all, kv, del);
    forall k | k in kv ensures k in Seen(all, kv, del) {
      var head := Assign(k, FirstLines(kv));
      KeyLines(lines, kv, del, order, k, head);
      FilterMember(Resplit(out), IsFor(k), head);
      var i :| 0 <= i < |all| && all[i] == head;
      SeenMember(all, kv, del, i);
    }
  }

  // ---- The second file ----------------------------------------------------------------

  lemma {:induction false} TrimTailAfter(a: seq<string>, ln: string, b: seq<string>)
    requires TrimSpace(ln) != ""
    ensures TrimTail(a + [ln] + b) == a + [ln] + TrimTail(b)
  {
    var all := a + [ln] + b;
    if b == [] {
      assert all == a + [ln];
    } else {
      var rest := b[..|b| - 1];
      assert all[..|all| - 1] == a + [ln] + rest;
      if TrimSpace(b[|b| - 1]) == "" { TrimTailAfter(a, ln, rest); }
    }
  }

  lemma TrimTailBlank(lines: seq<string>)
    ensures TrimTail(lines + [""]) == TrimTail(lines)
  {
    assert (lines + [""])[..|lines|] == lines;
    assert TrimSpace("") == "";
  }

  lemma {:induction false} TrimTailEmpty(lines: seq<string>)
    ensures TrimTail(lines) == [] <==> forall ln :: ln in lines ==> TrimSpace(ln) == ""
  {
    if lines != [] {
      var rest, ln := lines[..|lines| - 1], lines[|lines| - 1];
      assert lines == rest + [ln];
      if TrimSpace(ln) == "" { TrimTailEmpty(rest); } else { assert ln in lines; }
    }
  }

  lemma {:induction false} ExtraEmpty(lines: seq<string>, kv: Settings, del: set<string>)
    requires Clean(kv, del)
    ensures FirstPass(lines, kv, del) == [] <==> forall ln :: ln in lines ==> EnvLineKey(ln) in del
  {
    if lines != [] {
      ExtraEmpty(lines[1..], kv, del);
      assert lines == [lines[0]] + lines[1..];
    }
  }

  lemma {:induction false} ExtraBlank(lines: seq<string>, kv: Settings, del: set<string>)
    requires Clean(kv, del)
    ensures TrimTail(FirstPass(lines, kv, del)) == [] <==>
              forall ln :: ln in lines ==> EnvLineKey(ln) in del || TrimSpace(ln) == ""
  {
    TrimTailEmpty(FirstPass(lines, kv, del));
    if lines == [] {
    } else {
      ExtraBlank(lines[1..], kv, del);
      TrimTailEmpty(FirstPass(lines[1..], kv, del));
      RewriteBlank(lines[0], kv, del);
      assert lines == [lines[0]] + lines[1..];
      var head, t := Rewrite(lines[0], kv, del), FirstPass(lines[1..], kv, del);
      assert forall x :: x in head + t <==> x in head || x in t;
    }
  }

  lemma RewriteBlank(ln: string, kv: Settings, del: set<string>)
    requires Clean(kv, del)
    ensures (forall x :: x in Rewrite(ln, kv, del) ==> TrimSpace(x) == "") <==>
              EnvLineKey(ln) in del || TrimSpace(ln) == ""
  {
    var key := EnvLineKey(ln);
    if key in kv { AssignNotBlank(key, kv[key]); }
    assert forall x :: x in [ln] <==> x == ln;
    if key != "" && key !in del && key in kv { assert Assign(key, kv) in Rewrite(ln, kv, del); }
  }

  lemma {:induction false} ExpandCounts(out: seq<string>, kv: Settings, del: set<string>)
    ensures |Resplit(Expand(out, kv, del))| >= |Resplit(out)|
    ensures |Resplit(Expand(out, kv, del))| == |Resplit(out)| <==> forall ln :: ln in out ==> Extra(ln, kv, del) == []
    ensures (forall ln :: ln in out ==> Extra(ln, kv, del) == []) ==> Expand(out, kv, del) == out
  {
    if out != [] {
      var extra, t := Extra(out[0], kv, del), Expand(out[1..], kv, del);
      ExpandCounts(out[1..], kv, del);
      ResplitConcat([out[0]] + extra, t);
      ResplitConcat([out[0]], extra);
      assert [out[0]][1..] == [];
      ResplitGrows(extra);
      assert out == [out[0]] + out[1..];
    }
  }

  lemma {:induction false} ResplitGrows(lines: seq<string>)
    ensures |Resplit(lines)| >= |lines|
  {
    if lines != [] { ResplitGrows(lines[1..]); }
  }

  /** Every later line of a written line is for a deleted key; at the very end of the file it may be blank. */
  ghost predicate Repeatable(out: seq<string>, del: set<string>) {
    forall i, ln :: 0 <= i < |out| && ln in Later(out[i]) ==>
      EnvLineKey(ln) in del || (i == |out| - 1 && TrimSpace(ln) == "")
  }

  lemma RepeatableSplits(init: seq<string>, last: string, kv: Settings, del: set<string>)
    requires Clean(kv, del)
    ensures Repeatable(init + [last], del) <==>
              (forall ln :: ln in init ==> Extra(ln, kv, del) == []) && TrimTail(Extra(last, kv, del)) == []
  {
    var out := init + [last];
    ExtraBlank(Later(last), kv, del);
    forall ln ensures Extra(ln, kv, del) == [] <==> forall x :: x in Later(ln) ==> EnvLineKey(x) in del {
      ExtraEmpty(Later(ln), kv, del);
    }
    assert out[|init|] == last;
    if Repeatable(out, del) {
      forall ln | ln in init ensures Extra(ln, kv, del) == [] {
        var i :| 0 <= i < |init| && init[i] == ln;
        assert out[i] == ln;
      }
    }
    if (forall ln :: ln in init ==> Extra(ln, kv, del) == []) && TrimTail(Extra(last, kv, del)) == [] {
      forall i, ln | 0 <= i < |out| && ln in Later(out[i])
        ensures EnvLineKey(ln) in del || (i == |out| - 1 && TrimSpace(ln) == "")
      {
        if i < |init| { assert out[i] == init[i] && Extra(init[i], kv, del) == []; }
      }
    }
  }

  /** The lines of the second file, for a first one that ends in a line that is not blank. */
  lemma SecondLines(init: seq<string>, last: string, kv: Settings, del: set<string>)
    requires Clean(kv, del) && TrimSpace(last) != ""
    ensures TrimTail(Expand(init + [last], kv, del) + [""])
         == Expand(init, kv, del) + [last] + TrimTail(Extra(last, kv, del))
  {
    var a, b := Expand(init, kv, del), Extra(last, kv, del);
    FlatMapConcat(init, [last], Expander(kv, del));
    ExpandOne(last, kv, del);
    assert a + ([last] + b) == a + [last] + b;
    TrimTailBlank(a + [last] + b);
    TrimTailAfter(a, last, b);
  }

  lemma ExpandOne(ln: string, kv: Settings, del: set<string>)
    ensures Expand([ln], kv, del) == [ln] + Extra(ln, kv, del)
  {
    assert [ln][1..] == [] && Expand([], kv, del) == [];
  }

  lemma SecondSame(init: seq<string>, last: string, kv: Settings, del: set<string>)
    requires Clean(kv, del) && TrimSpace(last) != ""
    ensures var out, again := init + [last], Expand(init, kv, del) + [last] + TrimTail(Extra(last, kv, del));
            && (Repeatable(out, del) ==> again == out)
            && (!Repeatable(out, del) ==> |Resplit(again)| > |Resplit(out)|)
  {
    var a, tail := Expand(init, kv, del), TrimTail(Extra(last, kv, del));
    RepeatableSplits(init, last, kv, del);
    ExpandCounts(init, kv, del);
    ResplitConcat(init, [last]);
    ResplitConcat(a + [last], tail);
    ResplitConcat(a, [last]);
    ResplitGrows(tail);
  }

  lemma BlankPass(kv: Settings, del: set<string>)
    ensures FirstPass([""], kv, del) == [""] && FirstPass(["", ""], kv, del) == ["", ""]
  {
    assert EnvLineKey("") == "" && [""][1..] == [] && ["", ""][1..] == [""];
    assert FirstPass([], kv, del) == [];
  }

  lemma NoNewKeys(order: seq<string>, lines: seq<string>, kv: Settings, del: set<string>)
    requires NewKeys(order, lines, kv, del) && Seen(lines, kv, del) == kv.Keys
    ensures order == []
  {
    HeadIn(order);
  }

  lemma HeadIn(order: seq<string>)
    ensures order == [] || order[0] in order
  {
  }

  /** What a second merge writes. */
  function Again(out: seq<string>, kv: Settings, del: set<string>): seq<string> {
    if out == [] then [] else TrimTail(Expand(out, kv, del) + [""])
  }

  lemma SecondPassAll(out: seq<string>, kv: Settings, del: set<string>)
    requires AllStable(out, kv, del)
    ensures TrimTail(FirstPass(SplitLines(Body(out)), kv, del)) == Again(out, kv, del)
  {
    SplitBody(out);
    BlankPass(kv, del);
    if out == [] {
      assert [""] + [""] == ["", ""];
      TrimTailEmpty(["", ""]);
    } else {
      SecondPass(out, kv, del);
      FirstPassConcat(Resplit(out), [""], kv, del);
    }
  }

  lemma SecondMerge(lines: seq<string>, kv: Settings, del: set<string>, order: seq<string>, twice: string)
    requires Clean(kv, del) && kv.Keys !! del && PlainLines(lines) && NewKeys(order, lines, kv, del)
    requires Merged(Body(MergeLines(lines, kv, del, order)), kv, del, twice)
    ensures twice == Body(Again(MergeLines(lines, kv, del, order), kv, del))
  {
    var out := MergeLines(lines, kv, del, order);
    var all := SplitLines(Body(out));
    SplitBody(out);
    SecondSeesAll(lines, kv, del, order, all);
    var order2 :| NewKeys(order2, all, kv, del) && twice == Body(MergeLines(all, kv, del, order2));
    NoNewKeys(order2, all, kv, del);
    assert FirstPass(all, kv, del) + Appended(order2, kv) == FirstPass(all, kv, del);
    MergeStable(lines, kv, del, order);
    SecondPassAll(out, kv, del);
  }

  lemma LastNotBlank(lines: seq<string>)
    requires lines != [] && TrimTail(lines) == lines
    ensures TrimSpace(lines[|lines| - 1]) != ""
  {
    var blanks := TrimTailSplits(lines[..|lines| - 1]);
  }

  /** The second file against the first, for written lines with no blank tail. */
  lemma AgainGrows(out: seq<string>, kv: Settings, del: set<string>)
    requires Clean(kv, del) && TrimTail(out) == out
    ensures Repeatable(out, del) ==> Again(out, kv, del) == out
    ensures !Repeatable(out, del) ==> |SplitLines(Body(Again(out, kv, del)))| > |SplitLines(Body(out))|
  {
    if out != [] {
      var init, last := out[..|out| - 1], out[|out| - 1];
      assert out == init + [last];
      LastNotBlank(out);
      SecondLines(init, last, kv, del);
      SecondSame(init, last, kv, del);
      SplitBody(out);
      SplitBody(Again(out, kv, del));
    }
  }

  /** Merging a second time changes nothing if and only if every later line of every value is for a deleted
      key, or is blank and belongs to the value that ends the file; otherwise the file grows. */
  lemma MergeTwice(text: string, kv: Settings, del: set<string>, order: seq<string>, twice: string)
    requires Clean(kv, del) && kv.Keys !! del && NewKeys(order, SplitLines(text), kv, del)
    requires Merged(Body(MergeLines(SplitLines(text), kv, del, order)), kv, del, twice)
    ensures var out := MergeLines(SplitLines(text), kv, del, order);
            && (twice == Body(out) <==> Repeatable(out, del))
            && (!Repeatable(out, del) ==> |SplitLines(twice)| > |SplitLines(Body(out))|)
  {
    var lines := SplitLines(text);
    SecondMerge(lines, kv, del, order, twice);
    TrimTailAgain(FirstPass(lines, kv, del) + Appended(order, kv));
    AgainGrows(MergeLines(lines, kv, del, order), kv, del);
  }

  /** With values of one line each, merging twice is merging once, whatever the order of new keys. */
  lemma MergeTwicePlain(text: string, kv: Settings, del: set<string>, once: string, twice: string)
    requires Clean(kv, del) && kv.Keys !! del && forall k :: k in kv ==> '\n' !in kv[k]
    requires Merged(text, kv, del, once) && Merged(once, kv, del, twice)
    ensures twice == once
  {
    var order :| NewKeys(order, SplitLines(text), kv, del)
                 && once == Body(MergeLines(SplitLines(text), kv, del, order));
    var out := MergeLines(SplitLines(text), kv, del, order);
    MergeTwice(text, kv, del, order, twice);
    forall i, ln | 0 <= i < |out| ensures ln !in Later(out[i]) {
      LaterMember(out, ln);
      MergeStrays(SplitLines(text), kv, del, order, ln);
      if Stray(kv, ln) {
        var k :| k in kv && ln in Later(kv[k]);
        LaterEmpty(kv[k]);
      }
    }
  }

  /** A value with a later line that is neither blank nor for a deleted key makes every second merge grow
      the file. */
  lemma MergeGrows(text: string, kv: Settings, del: set<string>, once: string, twice: string, ln: string)
    requires Clean(kv, del) && kv.Keys !! del && Stray(kv, ln) && TrimSpace(ln) != "" && EnvLineKey(ln) !in del
    requires Merged(text, kv, del, once) && Merged(once, kv, del, twice)
    ensures twice != once && |SplitLines(twice)| > |SplitLines(once)|
  {
    var order :| NewKeys(order, SplitLines(text), kv, del)
                 && once == Body(MergeLines(SplitLines(text), kv, del, order));
    var out := MergeLines(SplitLines(text), kv, del, order);
    MergeTwice(text, kv, del, order, twice);
    MergeStrays(SplitLines(text), kv, del, order, ln);
    LaterMember(out, ln);
  }

  /** Such a value exists: merging it into an empty file twice grows the file. */
  lemma TwoLineValueGrows()
    ensures var kv: Settings := map["A" := "x\nB=y"];
            exists once, twice :: Merged("", kv, {}, once) && Merged(once, kv, {}, twice) && twice != once
  {
    var kv: Settings := map["A" := "x\nB=y"];
    TwoLineValue();
    var lines := SplitLines("");
    assert Seen(lines, kv, {}) == {} by { assert lines == [""] && EnvLineKey("") == "" && [""][1..] == []; }
    assert NewKeys(["A"], lines, kv, {});
    var out := MergeLines(lines, kv, {}, ["A"]);
    var once := Body(out);
    SplitBody(out);
    SecondSeesAll(lines, kv, {}, ["A"], SplitLines(once));
    assert NewKeys([], SplitLines(once), kv, {});
    var twice := Body(MergeLines(SplitLines(once), kv, {}, []));
    assert Merged("", kv, {}, once) && Merged(once, kv, {}, twice);
    MergeGrows("", kv, {}, once, twice, "B=y");
  }
}
