/** Finding the JSON object inside a model's prose: internal/bootstrap/bootstrap.go:697-737. */
module JsonSpan {
  import opened Common
  import Text

  // ---- The scanner ------------------------------------------------------

  /** What follows the brace that closes the outermost open pair of s, None if it is never closed. */
  function AfterClose(s: string, depth: nat, inStr: bool, esc: bool): (r: Option<string>)
    ensures r.Some? ==> |r.value| < |s|
  {
    if s == "" then None
    else
      var c, t := s[0], s[1..];
      if inStr then
        if esc then AfterClose(t, depth, true, false)
        else if c == '\\' then AfterClose(t, depth, true, true)
        else AfterClose(t, depth, c != '"', false)
      else if c == '"' then AfterClose(t, depth, true, false)
      else if c == '{' then AfterClose(t, depth + 1, false, false)
      else if c == '}' && depth <= 1 then Some(t)
      else if c == '}' then AfterClose(t, depth - 1, false, false)
      else AfterClose(t, depth, false, false)
  }

  function From(s: string): Option<string> {
    match Text.IndexOf(s, '{')
    case None => None
    case Some(i) => Some(s[i..])
  }

  /** The first brace-balanced span of s, if there is one. */
  function Extract(s: string): Option<string> {
    match From(s)
    case None => None
    case Some(t) =>
      match AfterClose(t, 0, false, false)
      case None => None
      case Some(rest) => Some(t[..|t| - |rest|])
  }

  // ---- What a balanced span is, as a grammar ------------------------------

  /** The inside of a string literal: plain characters and backslash pairs. */
  datatype Chars = End | Plain(c: char, rest: Chars) | Escaped(c: char, rest: Chars)

  /** The inside of a brace pair: other text, string literals and nested pairs. */
  datatype Body =
    | Empty
    | Other(c: char, rest: Body)
    | Quoted(chars: Chars, rest: Body)
    | Group(inner: Body, rest: Body)

  predicate CharsOk(s: Chars) {
    match s
    case End => true
    case Plain(c, rest) => c != '"' && c != '\\' && CharsOk(rest)
    case Escaped(_, rest) => CharsOk(rest)
  }

  predicate BodyOk(b: Body) {
    match b
    case Empty => true
    case Other(c, rest) => c != '"' && c != '{' && c != '}' && BodyOk(rest)
    case Quoted(chars, rest) => CharsOk(chars) && BodyOk(rest)
    case Group(inner, rest) => BodyOk(inner) && BodyOk(rest)
  }

  /** The characters of s followed by tail; the other printers work the same way. */
  function CharsThen(s: Chars, tail: string): string {
    match s
    case End => tail
    case Plain(c, rest) => [c] + CharsThen(rest, tail)
    case Escaped(c, rest) => ['\\'] + ([c] + CharsThen(rest, tail))
  }

  function BodyThen(b: Body, tail: string): string {
    match b
    case Empty => tail
    case Other(c, rest) => [c] + BodyThen(rest, tail)
    case Quoted(chars, rest) => ['"'] + CharsThen(chars, ['"'] + BodyThen(rest, tail))
    case Group(inner, rest) => ['{'] + BodyThen(inner, ['}'] + BodyThen(rest, tail))
  }

  function Print(b: Body): string { BodyThen(b, "") }

  /** raw is a balanced brace pair standing at the first '{' of s. */
  ghost predicate IsSpan(s: string, raw: string) {
    exists pre, b, suf :: SpanAt(s, raw, pre, b, suf)
  }

  ghost predicate SpanAt(s: string, raw: string, pre: string, b: Body, suf: string) {
    && BodyOk(b)
    && '{' !in pre
    && raw == Print(Group(b, Empty))
    && s == pre + (raw + suf)
  }

  lemma {:induction false} CharsThenAppends(s: Chars, x: string, y: string)
    ensures CharsThen(s, x + y) == CharsThen(s, x) + y
  {
    match s
    case End =>
    case Plain(c, rest) => CharsThenAppends(rest, x, y);
    case Escaped(c, rest) => CharsThenAppends(rest, x, y);
  }

  lemma {:induction false} BodyThenAppends(b: Body, x: string, y: string)
    ensures BodyThen(b, x + y) == BodyThen(b, x) + y
  {
    match b
    case Empty =>
    case Other(c, rest) => BodyThenAppends(rest, x, y);
    case Quoted(chars, rest) =>
      BodyThenAppends(rest, x, y);
      CharsThenAppends(chars, ['"'] + BodyThen(rest, x), y);
      assert ['"'] + (BodyThen(rest, x) + y) == (['"'] + BodyThen(rest, x)) + y;
    case Group(inner, rest) =>
      BodyThenAppends(rest, x, y);
      BodyThenAppends(inner, ['}'] + BodyThen(rest, x), y);
      assert ['}'] + (BodyThen(rest, x) + y) == (['}'] + BodyThen(rest, x)) + y;
  }

  lemma PrintThen(b: Body, tail: string)
    ensures BodyThen(b, tail) == Print(b) + tail
  {
    BodyThenAppends(b, "", tail);
    assert "" + tail == tail;
  }

  // ---- Every balanced span is found ---------------------------------------

  lemma {:induction false} CloseChars(s: Chars, tail: string, depth: nat)
    requires CharsOk(s)
    ensures AfterClose(CharsThen(s, tail), depth, true, false) == AfterClose(tail, depth, true, false)
  {
    match s
    case End =>
    case Plain(c, rest) =>
      CloseChars(rest, tail, depth);
      assert CharsThen(s, tail)[1..] == CharsThen(rest, tail);
    case Escaped(c, rest) =>
      CloseChars(rest, tail, depth);
      assert CharsThen(s, tail)[1..] == [c] + CharsThen(rest, tail);
      assert ([c] + CharsThen(rest, tail))[1..] == CharsThen(rest, tail);
  }

  lemma {:induction false} CloseBody(b: Body, tail: string, depth: nat)
    requires BodyOk(b) && depth >= 1
    ensures AfterClose(BodyThen(b, tail), depth, false, false) == AfterClose(tail, depth, false, false)
  {
    match b
    case Empty =>
    case Other(c, rest) =>
      CloseBody(rest, tail, depth);
      assert BodyThen(b, tail)[1..] == BodyThen(rest, tail);
    case Quoted(chars, rest) =>
      var after := ['"'] + BodyThen(rest, tail);
      CloseBody(rest, tail, depth);
      CloseChars(chars, after, depth);
      assert after[1..] == BodyThen(rest, tail);
      assert BodyThen(b, tail)[1..] == CharsThen(chars, after);
    case Group(inner, rest) =>
      var after := ['}'] + BodyThen(rest, tail);
      CloseBody(rest, tail, depth);
      CloseBody(inner, after, depth + 1);
      assert after[1..] == BodyThen(rest, tail);
      assert BodyThen(b, tail)[1..] == BodyThen(inner, after);
  }

  lemma {:induction false} FirstBrace(pre: string, tail: string)
    requires '{' !in pre && tail != "" && tail[0] == '{'
    ensures From(pre + tail) == Some(tail)
  {
    if pre == "" {
      assert pre + tail == tail;
    } else {
      FirstBrace(pre[1..], tail);
      assert (pre + tail)[1..] == pre[1..] + tail;
    }
  }

  lemma SpanFound(s: string, raw: string)
    requires IsSpan(s, raw)
    ensures Extract(s) == Some(raw)
  {
    var pre, b, suf :| SpanAt(s, raw, pre, b, suf);
    var t := raw + suf;
    PrintThen(Group(b, Empty), suf);
    var inside := BodyThen(b, ['}'] + suf);
    assert t == ['{'] + inside;
    FirstBrace(pre, t);
    assert t[1..] == inside;
    CloseBody(b, ['}'] + suf, 1);
    assert (['}'] + suf)[1..] == suf;
  }

  // ---- Everything found is a balanced span ----------------------------------

  /** The rest of the open pairs: each body, its closing brace, and finally the tail. */
  function ClosingThen(bs: seq<Body>, tail: string): string {
    if bs == [] then tail else BodyThen(bs[0], ['}'] + ClosingThen(bs[1..], tail))
  }

  ghost predicate AllOk(bs: seq<Body>) { forall b :: b in bs ==> BodyOk(b) }

  /** Extending the innermost open body on the left. */
  lemma Prepend(b: Body, bs: seq<Body>, tail: string)
    ensures ClosingThen([b] + bs, tail) == BodyThen(b, ['}'] + ClosingThen(bs, tail))
  {
    assert ([b] + bs)[1..] == bs;
  }

  /** Reads back the structure of the characters the scanner consumed. */
  lemma {:induction false} Parse(s: string, depth: nat, inStr: bool, tail: string) returns (ch: Chars, bs: seq<Body>)
    requires depth >= 1
    requires AfterClose(s, depth, inStr, false) == Some(tail)
    ensures |bs| == depth && AllOk(bs) && CharsOk(ch)
    ensures s == if inStr then CharsThen(ch, ['"'] + ClosingThen(bs, tail)) else ClosingThen(bs, tail)
    decreases |s|
  {
    var c, t := s[0], s[1..];
    assert s == [c] + t;
    ch := End;
    if inStr {
      ch, bs := ParseInString(s, depth, tail);
    } else if c == '"' {
      var ch', bs' := Parse(t, depth, true, tail);
      bs := [Quoted(ch', bs'[0])] + bs'[1..];
      Prepend(Quoted(ch', bs'[0]), bs'[1..], tail);
    } else if c == '{' {
      var _, bs' := Parse(t, depth + 1, false, tail);
      bs := [Group(bs'[0], bs'[1])] + bs'[2..];
      assert bs'[1..][1..] == bs'[2..];
      Prepend(Group(bs'[0], bs'[1]), bs'[2..], tail);
    } else if c == '}' {
      var bs' := [];
      if depth > 1 {
        var _, more := Parse(t, depth - 1, false, tail);
        bs' := more;
      }
      bs := [Empty] + bs';
      Prepend(Empty, bs', tail);
    } else {
      var _, bs' := Parse(t, depth, false, tail);
      bs := [Other(c, bs'[0])] + bs'[1..];
      Prepend(Other(c, bs'[0]), bs'[1..], tail);
    }
  }

  lemma {:induction false} ParseInString(s: string, depth: nat, tail: string) returns (ch: Chars, bs: seq<Body>)
    requires depth >= 1
    requires AfterClose(s, depth, true, false) == Some(tail)
    ensures |bs| == depth && AllOk(bs) && CharsOk(ch)
    ensures s == CharsThen(ch, ['"'] + ClosingThen(bs, tail))
    decreases |s|, 0
  {
    var c, t := s[0], s[1..];
    assert s == [c] + t;
    if c == '\\' {
      assert AfterClose(t, depth, true, true) == Some(tail);
      var u := t[1..];
      assert t == [t[0]] + u;
      var ch', bs' := Parse(u, depth, true, tail);
      ch, bs := Escaped(t[0], ch'), bs';
    } else if c == '"' {
      var _, bs' := Parse(t, depth, false, tail);
      ch, bs := End, bs';
    } else {
      var ch', bs' := Parse(t, depth, true, tail);
      ch, bs := Plain(c, ch'), bs';
    }
  }

  lemma ClosedIsGroup(t: string, suf: string) returns (b: Body)
    requires t != "" && t[0] == '{'
    requires AfterClose(t, 0, false, false) == Some(suf)
    ensures BodyOk(b) && t == Print(Group(b, Empty)) + suf
  {
    var _, bs := Parse(t[1..], 1, false, suf);
    b := bs[0];
    assert bs == [b] + [];
    Prepend(b, [], suf);
    assert t == ['{'] + t[1..];
    PrintThen(Group(b, Empty), suf);
  }

  lemma FoundIsSpan(s: string)
    requires Extract(s).Some?
    ensures IsSpan(s, Extract(s).value)
  {
    var i := Text.IndexOf(s, '{').value;
    var t := s[i..];
    var suf := AfterClose(t, 0, false, false).value;
    var b := ClosedIsGroup(t, suf);
    var raw := Print(Group(b, Empty));
    assert t[..|t| - |suf|] == raw;
    assert s == s[..i] + t;
    assert SpanAt(s, raw, s[..i], b, suf);
  }

  /** The extractor is exact: it returns raw precisely when raw is the balanced span at the
      first brace, hence at most one such span exists and failure means there is none. */
  lemma ExtractExact(s: string, raw: string)
    ensures Extract(s) == Some(raw) <==> IsSpan(s, raw)
  {
    if IsSpan(s, raw) { SpanFound(s, raw); }
    if Extract(s) == Some(raw) { FoundIsSpan(s); }
  }

  /** No proper prefix of the returned span is itself balanced. */
  lemma ExtractShortest(s: string, raw: string, k: nat, b: Body)
    requires Extract(s) == Some(raw) && k < |raw|
    ensures BodyOk(b) ==> raw[..k] != Print(Group(b, Empty))
  {
    if BodyOk(b) && raw[..k] == Print(Group(b, Empty)) {
      FoundIsSpan(s);
      var pre, b0, suf :| SpanAt(s, raw, pre, b0, suf);
      assert raw + suf == raw[..k] + (raw[k..] + suf);
      assert SpanAt(s, raw[..k], pre, b, raw[k..] + suf);
      SpanFound(s, raw[..k]);
    }
  }

  // ---- The loop -----------------------------------------------------------

  /** The scan itself, from the first brace on. */
  method Scan(t: string) returns (end: nat, ok: bool)
    requires t != "" && t[0] == '{'
    ensures ok ==> end <= |t| && AfterClose(t, 0, false, false) == Some(t[end..])
    ensures !ok ==> AfterClose(t, 0, false, false).None?
  {
    var depth, inStr, esc := 0, false, false;
    var i := 0;
    while i < |t|
      invariant 0 <= i <= |t| && depth >= 0
      invariant if i == 0 then depth == 0 && !inStr && !esc else depth >= 1
      invariant esc ==> inStr
      invariant AfterClose(t[i..], depth, inStr, esc) == AfterClose(t, 0, false, false)
    {
      var c := t[i];
      assert t[i..][1..] == t[i + 1..];
      if inStr {
        if esc {
          esc := false;
        } else if c == '\\' {
          esc := true;
        } else if c == '"' {
          inStr := false;
        }
      } else if c == '"' {
        inStr := true;
      } else if c == '{' {
        depth := depth + 1;
      } else if c == '}' {
        depth := depth - 1;
        if depth == 0 {
          return i + 1, true;
        }
      }
      i := i + 1;
    }
    return 0, false;
  }

  method ExtractJSONObject(s: string) returns (raw: string, ok: bool)
    ensures ok ==> IsSpan(s, raw)
    ensures !ok ==> raw == "" && forall r :: !IsSpan(s, r)
    ensures ok <==> Extract(s).Some?
  {
    forall r ensures Extract(s) == Some(r) <==> IsSpan(s, r) { ExtractExact(s, r); }
    var start := Text.IndexOf(s, '{');
    if start.None? {
      return "", false;
    }
    var t := s[start.value..];
    var end, found := Scan(t);
    if !found {
      return "", false;
    }
    return t[..end], true;
  }
}

/** JSON texts (RFC 8259) with every freedom a conforming printer has: white space, escapes and number forms. */
module JsonText {
  import opened Common
  import opened JsonSpan

  datatype Value =
    | Scalar(text: string)                        // true, false, null or a number token
    | Str(chars: Chars)
    | Array(ws: string, elems: Elems)
    | Object(ws: string, members: Members)

  datatype Elems = NoElem | Elem(ws1: string, v: Value, ws2: string, rest: Elems)

  datatype Members =
    | NoMember
    | Member(ws1: string, key: Chars, ws2: string, ws3: string, v: Value, ws4: string, rest: Members)

  predicate Ws(s: string) { forall c :: c in s ==> c in " \t\n\r" }

  predicate ScalarText(s: string) {
    s in ["true", "false", "null"] || (s != "" && forall c :: c in s ==> c in "0123456789+-.eE")
  }

  predicate Wf(v: Value) {
    match v
    case Scalar(text) => ScalarText(text)
    case Str(chars) => CharsOk(chars)
    case Array(ws, elems) => Ws(ws) && ElemsWf(elems)
    case Object(ws, members) => Ws(ws) && MembersWf(members)
  }

  predicate ElemsWf(e: Elems) {
    match e
    case NoElem => true
    case Elem(ws1, v, ws2, rest) => Ws(ws1) && Wf(v) && Ws(ws2) && ElemsWf(rest)
  }

  predicate MembersWf(m: Members) {
    match m
    case NoMember => true
    case Member(ws1, key, ws2, ws3, v, ws4, rest) =>
      Ws(ws1) && CharsOk(key) && Ws(ws2) && Ws(ws3) && Wf(v) && Ws(ws4) && MembersWf(rest)
  }

  /** The text of v followed by tail. */
  function ValueThen(v: Value, tail: string): string {
    match v
    case Scalar(text) => text + tail
    case Str(chars) => ['"'] + CharsThen(chars, ['"'] + tail)
    case Array(ws, elems) => ['['] + (ws + ElemsThen(elems, [']'] + tail))
    case Object(ws, members) => ['{'] + (ws + MembersThen(members, ['}'] + tail))
  }

  function ElemsThen(e: Elems, tail: string): string {
    match e
    case NoElem => tail
    case Elem(ws1, v, ws2, rest) =>
      ws1 + ValueThen(v, ws2 + (Comma(rest.Elem?) + ElemsThen(rest, tail)))
  }

  function MembersThen(m: Members, tail: string): string {
    match m
    case NoMember => tail
    case Member(ws1, key, ws2, ws3, v, ws4, rest) =>
      ws1 + (['"'] + CharsThen(key, ['"'] + (ws2 + ([':'] + (ws3 +
        ValueThen(v, ws4 + (Comma(rest.Member?) + MembersThen(rest, tail))))))))
  }

  function Comma(more: bool): string { if more then "," else "" }

  function Write(v: Value): string { ValueThen(v, "") }

  // ---- Every JSON text is balanced: reading it as brace structure, in front of k ----

  function TextBody(s: string, k: Body): Body {
    if s == "" then k else Other(s[0], TextBody(s[1..], k))
  }

  function ValueBody(v: Value, k: Body): Body {
    match v
    case Scalar(text) => TextBody(text, k)
    case Str(chars) => Quoted(chars, k)
    case Array(ws, elems) => Other('[', TextBody(ws, ElemsBody(elems, Other(']', k))))
    case Object(ws, members) => Group(TextBody(ws, MembersBody(members, Empty)), k)
  }

  function ElemsBody(e: Elems, k: Body): Body {
    match e
    case NoElem => k
    case Elem(ws1, v, ws2, rest) =>
      TextBody(ws1, ValueBody(v, TextBody(ws2, TextBody(Comma(rest.Elem?), ElemsBody(rest, k)))))
  }

  function MembersBody(m: Members, k: Body): Body {
    match m
    case NoMember => k
    case Member(ws1, key, ws2, ws3, v, ws4, rest) =>
      TextBody(ws1, Quoted(key, TextBody(ws2, Other(':', TextBody(ws3,
        ValueBody(v, TextBody(ws4, TextBody(Comma(rest.Member?), MembersBody(rest, k)))))))))
  }

  ghost predicate Braceless(s: string) {
    forall i :: 0 <= i < |s| ==> s[i] != '"' && s[i] != '{' && s[i] != '}'
  }

  lemma WsBraceless(s: string)
    requires Ws(s) || ScalarText(s)
    ensures Braceless(s)
  {
    forall i | 0 <= i < |s| ensures s[i] != '"' && s[i] != '{' && s[i] != '}' {
      assert s[i] in s;
    }
  }

  lemma {:induction false} TextBodyPrints(s: string, k: Body, tail: string)
    requires Braceless(s)
    ensures BodyOk(k) ==> BodyOk(TextBody(s, k))
    ensures BodyThen(TextBody(s, k), tail) == s + BodyThen(k, tail)
  {
    if s != "" {
      TextBodyPrints(s[1..], k, tail);
      assert s == [s[0]] + s[1..];
      assert [s[0]] + (s[1..] + BodyThen(k, tail)) == s + BodyThen(k, tail);
    }
  }

  lemma {:induction false} ValueBodyPrints(v: Value, k: Body, tail: string)
    requires Wf(v) && BodyOk(k)
    ensures BodyOk(ValueBody(v, k))
    ensures BodyThen(ValueBody(v, k), tail) == ValueThen(v, BodyThen(k, tail))
  {
    match v
    case Scalar(text) =>
      WsBraceless(text);
      TextBodyPrints(text, k, tail);
    case Str(chars) =>
    case Array(ws, elems) =>
      WsBraceless(ws);
      ElemsBodyPrints(elems, Other(']', k), tail);
      TextBodyPrints(ws, ElemsBody(elems, Other(']', k)), tail);
    case Object(ws, members) =>
      WsBraceless(ws);
      var after := ['}'] + BodyThen(k, tail);
      MembersBodyPrints(members, Empty, after);
      TextBodyPrints(ws, MembersBody(members, Empty), after);
  }

  lemma {:induction false} ElemsBodyPrints(e: Elems, k: Body, tail: string)
    requires ElemsWf(e) && BodyOk(k)
    ensures BodyOk(ElemsBody(e, k))
    ensures BodyThen(ElemsBody(e, k), tail) == ElemsThen(e, BodyThen(k, tail))
  {
    match e
    case NoElem =>
    case Elem(ws1, v, ws2, rest) =>
      var b1 := TextBody(Comma(rest.Elem?), ElemsBody(rest, k));
      var b2 := TextBody(ws2, b1);
      WsBraceless(ws1);
      WsBraceless(ws2);
      ElemsBodyPrints(rest, k, tail);
      TextBodyPrints(Comma(rest.Elem?), ElemsBody(rest, k), tail);
      TextBodyPrints(ws2, b1, tail);
      ValueBodyPrints(v, b2, tail);
      TextBodyPrints(ws1, ValueBody(v, b2), tail);
  }

  lemma {:induction false} MembersBodyPrints(m: Members, k: Body, tail: string)
    requires MembersWf(m) && BodyOk(k)
    ensures BodyOk(MembersBody(m, k))
    ensures BodyThen(MembersBody(m, k), tail) == MembersThen(m, BodyThen(k, tail))
  {
    match m
    case NoMember =>
    case Member(ws1, key, ws2, ws3, v, ws4, rest) =>
      var b1 := TextBody(Comma(rest.Member?), MembersBody(rest, k));
      var b2 := TextBody(ws4, b1);
      var b3 := TextBody(ws3, ValueBody(v, b2));
      var b4 := TextBody(ws2, Other(':', b3));
      WsBraceless(ws1);
      WsBraceless(ws2);
      WsBraceless(ws3);
      WsBraceless(ws4);
      MembersBodyPrints(rest, k, tail);
      TextBodyPrints(Comma(rest.Member?), MembersBody(rest, k), tail);
      TextBodyPrints(ws4, b1, tail);
      ValueBodyPrints(v, b2, tail);
      TextBodyPrints(ws3, ValueBody(v, b2), tail);
      TextBodyPrints(ws2, Other(':', b3), tail);
      TextBodyPrints(ws1, Quoted(key, b4), tail);
  }

  /** Extraction undoes every conforming printer, whatever prose surrounds the object. */
  lemma ObjectRoundTrip(pre: string, v: Value, suf: string)
    requires '{' !in pre && v.Object? && Wf(v)
    ensures Extract(pre + (Write(v) + suf)) == Some(Write(v))
  {
    ValueBodyPrints(v, Empty, "");
    var b := TextBody(v.ws, MembersBody(v.members, Empty));
    assert ValueBody(v, Empty) == Group(b, Empty);
    assert SpanAt(pre + (Write(v) + suf), Write(v), pre, b, suf);
    SpanFound(pre + (Write(v) + suf), Write(v));
  }
}
