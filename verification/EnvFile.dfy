/** The line-based merge of agent-ops.env: internal/integrate/integrate.go:338-359 and 394-458. */
module EnvFile {
  import opened Common
  import opened Text

  predicate KeyChar(c: char) { c == '_' || 'A' <= c <= 'Z' || 'a' <= c <= 'z' || '0' <= c <= '9' }

  /** Letters, digits and underscores, not starting with a digit. */
  predicate ValidEnvKey(s: string) {
    && s != ""
    && !('0' <= s[0] <= '9')
    && forall i :: 0 <= i < |s| ==> KeyChar(s[i])
  }

  /** The variable a line assigns, "" when it assigns none. */
  function EnvLineKey(ln: string): (key: string)
    ensures key == "" || ValidEnvKey(key)
  {
    var s := TrimSpace(ln);
    if s == "" || HasPrefix(s, "#") then ""
    else match IndexOf(s, '=')
      case None => ""
      case Some(eq) =>
        var key := TrimSpace(s[..eq]);
        if eq > 0 && ValidEnvKey(key) then key else ""
  }

  type Settings = map<string, string>

  function Assign(k: string, kv: Settings): string
    requires k in kv
  { k + "=" + kv[k] }

  // ---- The merge as a function of the order in which new keys are visited --------

  function Rewrite(ln: string, kv: Settings, del: set<string>): seq<string> {
    var key := EnvLineKey(ln);
    if key == "" then [ln]
    else if key in del then []
    else if key in kv then [Assign(key, kv)]
    else [ln]
  }

  function FirstPass(lines: seq<string>, kv: Settings, del: set<string>): seq<string> {
    if lines == [] then [] else Rewrite(lines[0], kv, del) + FirstPass(lines[1..], kv, del)
  }

  function SeenIn(ln: string, kv: Settings, del: set<string>): set<string> {
    var key := EnvLineKey(ln);
    if key != "" && key in kv && key !in del then {key} else {}
  }

  /** Keys of kv that some existing line already carries. */
  function Seen(lines: seq<string>, kv: Settings, del: set<string>): set<string> {
    if lines == [] then {} else SeenIn(lines[0], kv, del) + Seen(lines[1..], kv, del)
  }

  function Appended(order: seq<string>, kv: Settings): seq<string>
    requires forall k :: k in order ==> k in kv
  {
    seq(|order|, i requires 0 <= i < |order| => Assign(order[i], kv))
  }

  function TrimTail(lines: seq<string>): seq<string> {
    if lines != [] && TrimSpace(lines[|lines| - 1]) == "" then TrimTail(lines[..|lines| - 1]) else lines
  }

  /** order visits exactly the keys no line carries yet, each once. */
  ghost predicate NewKeys(order: seq<string>, lines: seq<string>, kv: Settings, del: set<string>) {
    Distinct(order) && (forall k :: k in order <==> k in kv.Keys - Seen(lines, kv, del))
  }

  function MergeLines(lines: seq<string>, kv: Settings, del: set<string>, order: seq<string>): seq<string>
    requires forall k :: k in order ==> k in kv
  {
    TrimTail(FirstPass(lines, kv, del) + Appended(order, kv))
  }

  function Body(lines: seq<string>): string { JoinLines(lines) + "\n" }

  /** body is a possible result of merging into text; Go fixes no order for the appended keys. */
  ghost predicate Merged(text: string, kv: Settings, del: set<string>, body: string) {
    exists order :: NewKeys(order, SplitLines(text), kv, del)
                    && body == Body(MergeLines(SplitLines(text), kv, del, order))
  }

  // ---- The two passes as the source runs them -----------------------------------

  method RewriteLines(lines: seq<string>, kv: Settings, del: set<string>) returns (out: seq<string>, seen: set<string>)
    ensures out == FirstPass(lines, kv, del) && seen == Seen(lines, kv, del)
  {
    seen, out := {}, [];
    var i := 0;
    while i < |lines|
      invariant 0 <= i <= |lines|
      invariant out + FirstPass(lines[i..], kv, del) == FirstPass(lines, kv, del)
      invariant seen + Seen(lines[i..], kv, del) == Seen(lines, kv, del)
    {
      var ln := lines[i];
      PassHead(out, lines[i..], kv, del);
      assert lines[i..][1..] == lines[i + 1..];
      var key := EnvLineKey(ln);
      if key == "" {
        out := out + [ln];
      } else if key in del {
        out := out + [];
      } else if key in kv {
        out := out + [Assign(key, kv)];
        seen := seen + {key};
      } else {
        out := out + [ln];
      }
      i := i + 1;
    }
  }

  /** Ranging over a Go map visits its keys in no fixed order. */
  method AppendNew(first: seq<string>, kv: Settings, seen: set<string>)
    returns (out: seq<string>, ghost order: seq<string>)
    ensures Distinct(order) && forall k :: k in order <==> k in kv.Keys - seen
    ensures out == first + Appended(order, kv)
  {
    out, order := first, [];
    var rest := kv.Keys;
    while rest != {}
      invariant rest <= kv.Keys
      invariant forall k :: k in order <==> k in kv.Keys - rest - seen
      invariant Distinct(order)
      invariant out == first + Appended(order, kv)
      decreases rest
    {
      var k :| k in rest;
      rest := rest - {k};
      if k !in seen {
        AppendOne(order, k, kv);
        assert k !in order;
        out := out + [Assign(k, kv)];
        order := order + [k];
      }
    }
  }

  lemma AppendOne(order: seq<string>, k: string, kv: Settings)
    requires k in kv && forall x :: x in order ==> x in kv
    ensures Appended(order + [k], kv) == Appended(order, kv) + [Assign(k, kv)]
  {
  }

  method DropBlankTail(lines: seq<string>) returns (out: seq<string>)
    ensures out == TrimTail(lines)
  {
    out := lines;
    while |out| > 0 && TrimSpace(out[|out| - 1]) == ""
      invariant TrimTail(out) == TrimTail(lines)
    {
      out := out[..|out| - 1];
    }
  }

  method MergeEnv(text: string, kv: Settings, del: set<string>) returns (body: string)
    ensures Merged(text, kv, del, body)
  {
    var lines := SplitLines(text);
    var out, seen := RewriteLines(lines, kv, del);
    ghost var order;
    out, order := AppendNew(out, kv, seen);
    out := DropBlankTail(out);
    assert NewKeys(order, lines, kv, del);
    body := JoinLines(out) + "\n";
  }

  lemma PassHead(out: seq<string>, lines: seq<string>, kv: Settings, del: set<string>)
    requires lines != []
    ensures out + FirstPass(lines, kv, del) == out + Rewrite(lines[0], kv, del) + FirstPass(lines[1..], kv, del)
  {
  }

  // ---- What a line is about ---------------------------------------------------------

  function IsFor(k: string): string -> bool { ln => EnvLineKey(ln) == k }

  /** About neither a set nor a deleted key. */
  function Untouched(keys: set<string>, del: set<string>): string -> bool {
    ln => EnvLineKey(ln) !in keys && EnvLineKey(ln) !in del
  }

  lemma {:induction false} TrimRightAfter(a: string, b: string)
    requires a != "" && !IsSpace(a[|a| - 1])
    ensures TrimRight(a + b) == a + TrimRight(b)
  {
    if b == "" {
      assert a + b == a;
    } else if IsSpace(b[|b| - 1]) {
      TrimRightAfter(a, b[..|b| - 1]);
      assert (a + b)[..|a + b| - 1] == a + b[..|b| - 1];
    }
  }

  lemma KeyTrimmed(k: string)
    requires ValidEnvKey(k)
    ensures TrimSpace(k) == k && '=' !in k
    ensures !IsSpace(k[0]) && k[0] != '#'
  {
    assert KeyChar(k[0]) && KeyChar(k[|k| - 1]);
  }

  lemma {:induction false} IndexAfter(k: string, t: string)
    requires '=' !in k && t != "" && t[0] == '='
    ensures IndexOf(k + t, '=') == Some(|k|)
  {
    if k == "" {
      assert k + t == t;
    } else {
      IndexAfter(k[1..], t);
      assert (k + t)[1..] == k[1..] + t;
    }
  }

  /** A written assignment is read back as an assignment to the same key. */
  lemma AssignHasKey(k: string, v: string)
    requires ValidEnvKey(k)
    ensures EnvLineKey(k + "=" + v) == k
  {
    var ln := k + "=" + v;
    var t := "=" + TrimRight(v);
    KeyTrimmed(k);
    TrimRightAfter(k + "=", v);
    assert TrimLeft(ln) == ln;
    assert TrimSpace(ln) == k + t;
    IndexAfter(k, t);
    assert (k + t)[..|k|] == k;
    assert (k + t)[0] == k[0];
  }

  lemma {:induction false} TrimLeftSplits(s: string) returns (a: string)
    ensures Blank(a) && s == a + TrimLeft(s)
  {
    a := "";
    if s != "" && IsSpace(s[0]) {
      var rest := TrimLeftSplits(s[1..]);
      a := [s[0]] + rest;
      assert s == [s[0]] + s[1..];
    }
  }

  lemma {:induction false} TrimRightSplits(s: string) returns (b: string)
    ensures Blank(b) && s == TrimRight(s) + b
  {
    b := "";
    if s != "" && IsSpace(s[|s| - 1]) {
      var rest := TrimRightSplits(s[..|s| - 1]);
      b := rest + [s[|s| - 1]];
      assert s == s[..|s| - 1] + [s[|s| - 1]];
    }
  }

  lemma TrimSplits(s: string) returns (a: string, b: string)
    ensures Blank(a) && Blank(b) && s == a + TrimSpace(s) + b
  {
    a := TrimLeftSplits(s);
    b := TrimRightSplits(TrimLeft(s));
  }

  lemma {:induction false} TrimLeftAfter(a: string, t: string)
    requires Blank(a) && t != "" && !IsSpace(t[0])
    ensures TrimLeft(a + t) == t
  {
    if a == "" {
      assert a + t == t;
    } else {
      assert a[0] in a && forall c :: c in a[1..] ==> c in a;
      TrimLeftAfter(a[1..], t);
      assert (a + t)[1..] == a[1..] + t;
    }
  }

  /** A key, an '=' and any value, with white space before the key and before the '='. */
  predicate Assigns(ln: string, k: string, a: string, b: string, v: string) {
    Blank(a) && Blank(b) && ln == a + (k + b + "=" + v)
  }

  lemma PaddedKey(k: string, b: string)
    requires ValidEnvKey(k) && Blank(b)
    ensures TrimSpace(k + b) == k && '=' !in k + b
  {
    KeyTrimmed(k);
    assert KeyChar(k[|k| - 1]);
    assert TrimLeft(k + b) == k + b;
    TrimRightAfter(k, b);
    TrimRightBlank(b);
    assert '=' !in b by { assert !IsSpace('='); }
  }

  lemma AssigningLine(ln: string, k: string, a: string, b: string, v: string)
    requires ValidEnvKey(k) && Assigns(ln, k, a, b, v)
    ensures EnvLineKey(ln) == k
  {
    var t := "=" + TrimRight(v);
    KeyTrimmed(k);
    PaddedKey(k, b);
    TrimLeftAfter(a, k + b + "=" + v);
    TrimRightAfter(k + b + "=", v);
    assert TrimSpace(ln) == k + b + t by { assert k + b + "=" + TrimRight(v) == k + b + t; }
    IndexAfter(k + b, t);
    assert (k + b + t)[..|k + b|] == k + b;
    assert (k + b + t)[0] == k[0];
  }

  lemma LineAssigning(ln: string) returns (a: string, b: string, v: string)
    requires EnvLineKey(ln) != ""
    ensures Assigns(ln, EnvLineKey(ln), a, b, v)
  {
    var s := TrimSpace(ln);
    var eq := IndexOf(s, '=').value;
    var k := EnvLineKey(ln);
    var before, after := TrimSplits(ln);
    var inner;
    inner, b := TrimSplits(s[..eq]);
    a, v := before + inner, s[eq + 1..] + after;
    assert s == s[..eq] + "=" + s[eq + 1..];
    calc {
      ln;
      before + (inner + k + b + "=" + s[eq + 1..]) + after;
      a + (k + b + "=" + v);
    }
  }

  /** A line assigns a key exactly when it is that key, which is valid, then '=' and anything, with white space
      allowed before both: comments, lines without '=' and other names assign nothing. */
  lemma KeyOfLineIff(ln: string, k: string)
    requires k != ""
    ensures EnvLineKey(ln) == k <==> ValidEnvKey(k) && exists a, b, v :: Assigns(ln, k, a, b, v)
  {
    if EnvLineKey(ln) == k {
      var a, b, v := LineAssigning(ln);
      assert Assigns(ln, k, a, b, v);
    }
    if ValidEnvKey(k) && exists a, b, v :: Assigns(ln, k, a, b, v) {
      var a, b, v :| Assigns(ln, k, a, b, v);
      AssigningLine(ln, k, a, b, v);
    }
  }

  // ---- The merged file as a map -----------------------------------------------------

  /** The keys to set are valid, as validateAdd demands, and nothing unnamed is deleted. Values may be
      any text, newlines included. */
  ghost predicate Clean(kv: Settings, del: set<string>) {
    (forall k :: k in kv ==> ValidEnvKey(k)) && "" !in del
  }

  lemma {:induction false} TrimTailSplits(lines: seq<string>) returns (blanks: seq<string>)
    ensures lines == TrimTail(lines) + blanks
    ensures forall b :: b in blanks ==> TrimSpace(b) == ""
  {
    blanks := [];
    if lines != [] && TrimSpace(lines[|lines| - 1]) == "" {
      var rest, ln := lines[..|lines| - 1], lines[|lines| - 1];
      var more := TrimTailSplits(rest);
      blanks := more + [ln];
      assert lines == rest + [ln];
    }
  }

  lemma {:induction false} TrimTailAgain(lines: seq<string>)
    ensures TrimTail(TrimTail(lines)) == TrimTail(lines)
  {
    if lines != [] && TrimSpace(lines[|lines| - 1]) == "" {
      TrimTailAgain(lines[..|lines| - 1]);
    }
  }

  /** Trailing blank lines assign nothing, so dropping them changes no filter on a key. */
  lemma TrimTailKeeps(lines: seq<string>, k: string)
    requires k != ""
    ensures Filter(TrimTail(lines), IsFor(k)) == Filter(lines, IsFor(k))
  {
    var blanks := TrimTailSplits(lines);
    FilterConcat(TrimTail(lines), blanks, IsFor(k));
    FilterNone(blanks, IsFor(k));
  }

  lemma {:induction false} FirstPassFor(lines: seq<string>, kv: Settings, del: set<string>, k: string)
    requires Clean(kv, del) && k != ""
    ensures var r := Filter(FirstPass(lines, kv, del), IsFor(k));
            if k in del then r == []
            else if k in kv then
              && (forall ln :: ln in r ==> ln == Assign(k, kv))
              && (r != [] <==> k in Seen(lines, kv, del))
            else r == Filter(lines, IsFor(k))
  {
    if lines != [] {
      var ln, t := lines[0], lines[1..];
      FirstPassFor(t, kv, del, k);
      FilterConcat(Rewrite(ln, kv, del), FirstPass(t, kv, del), IsFor(k));
      RewriteFor(ln, kv, del, k);
    }
  }

  lemma RewriteFor(ln: string, kv: Settings, del: set<string>, k: string)
    requires Clean(kv, del) && k != ""
    ensures Filter(Rewrite(ln, kv, del), IsFor(k))
         == if EnvLineKey(ln) != k || k in del then [] else if k in kv then [Assign(k, kv)] else [ln]
  {
    var key := EnvLineKey(ln);
    if key in kv { AssignHasKey(key, kv[key]); }
    assert [ln][1..] == [];
  }

  lemma {:induction false} SeenMember(lines: seq<string>, kv: Settings, del: set<string>, i: nat)
    requires i < |lines| && EnvLineKey(lines[i]) in kv && EnvLineKey(lines[i]) !in del && EnvLineKey(lines[i]) != ""
    ensures EnvLineKey(lines[i]) in Seen(lines, kv, del)
  {
    if i > 0 {
      assert lines[1..][i - 1] == lines[i];
      SeenMember(lines[1..], kv, del, i - 1);
    } else {
      assert SeenIn(lines[0], kv, del) == {EnvLineKey(lines[0])};
    }
  }

  lemma {:induction false} SeenSound(lines: seq<string>, kv: Settings, del: set<string>)
    ensures Seen(lines, kv, del) <= kv.Keys - del
  {
    if lines != [] { SeenSound(lines[1..], kv, del); }
  }

  lemma {:induction false} AppendedFor(order: seq<string>, kv: Settings, del: set<string>, k: string)
    requires Clean(kv, del) && (forall x :: x in order ==> x in kv)
    ensures var r := Filter(Appended(order, kv), IsFor(k));
            (forall ln :: ln in r ==> k in kv && ln == Assign(k, kv)) && (r != [] <==> k in order)
  {
    if order != [] {
      var a := Appended(order, kv);
      AppendedFor(order[1..], kv, del, k);
      AssignHasKey(order[0], kv[order[0]]);
      assert a[1..] == Appended(order[1..], kv);
      assert a[0] == Assign(order[0], kv);
    }
  }

  /** The lines written for a key: those of a set key are its assignment; a deleted key has none; those of
      any other key are the old ones, in order. */
  lemma LinesBind(lines: seq<string>, kv: Settings, del: set<string>, order: seq<string>, k: string)
    requires Clean(kv, del) && NewKeys(order, lines, kv, del) && k != ""
    ensures var r := Filter(MergeLines(lines, kv, del, order), IsFor(k));
            if k in kv then r != [] && forall ln :: ln in r ==> ln == Assign(k, kv)
            else if k in del then r == []
            else r == Filter(lines, IsFor(k))
  {
    var first, more := FirstPass(lines, kv, del), Appended(order, kv);
    TrimTailKeeps(first + more, k);
    FilterConcat(first, more, IsFor(k));
    FirstPassFor(lines, kv, del, k);
    AppendedFor(order, kv, del, k);
    SeenSound(lines, kv, del);
  }

  lemma {:induction false} FirstPassOthers(lines: seq<string>, kv: Settings, del: set<string>)
    requires Clean(kv, del)
    ensures Filter(FirstPass(lines, kv, del), Untouched(kv.Keys, del)) == Filter(lines, Untouched(kv.Keys, del))
  {
    if lines != [] {
      var ln := lines[0];
      FirstPassOthers(lines[1..], kv, del);
      FilterConcat(Rewrite(ln, kv, del), FirstPass(lines[1..], kv, del), Untouched(kv.Keys, del));
      var key := EnvLineKey(ln);
      if key in kv { AssignHasKey(key, kv[key]); }
      assert Filter(Rewrite(ln, kv, del), Untouched(kv.Keys, del)) == Filter([ln], Untouched(kv.Keys, del));
    }
  }

  /** Every line that is not about a set or deleted key is written in its place; only blank lines at the
      very end are dropped. */
  lemma OthersWritten(lines: seq<string>, kv: Settings, del: set<string>, order: seq<string>)
    returns (blanks: seq<string>)
    requires Clean(kv, del) && NewKeys(order, lines, kv, del)
    ensures Filter(lines, Untouched(kv.Keys, del))
         == Filter(MergeLines(lines, kv, del, order), Untouched(kv.Keys, del)) + blanks
    ensures forall b :: b in blanks ==> TrimSpace(b) == ""
  {
    var p := Untouched(kv.Keys, del);
    var first, more := FirstPass(lines, kv, del), Appended(order, kv);
    FirstPassOthers(lines, kv, del);
    FilterConcat(first, more, p);
    forall ln | ln in more ensures !p(ln) {
      var i :| 0 <= i < |more| && ln == more[i];
      AssignHasKey(order[i], kv[order[i]]);
    }
    FilterNone(more, p);
    var dropped := TrimTailSplits(first + more);
    FilterConcat(TrimTail(first + more), dropped, p);
    blanks := Filter(dropped, p);
    forall b | b in blanks ensures TrimSpace(b) == "" { FilterMember(dropped, p, b); }
  }
}
