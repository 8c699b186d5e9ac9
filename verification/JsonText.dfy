/**
 The canonical text of a JSON value, a text in the grammar of sections 2 to 7 of RFC 8259, and a
 decoder for canonical texts: it does not accept white space, and reads one form of each number.
 */
module JsonText {
  import opened Basics
  import opened Ordering
  import opened JsonTree

  const QUOTE: int := 0x22
  const BACKSLASH: int := 0x5C
  const COMMA: int := 0x2C
  const COLON: int := 0x3A
  const LBRACKET: int := 0x5B
  const RBRACKET: int := 0x5D
  const LBRACE: int := 0x7B
  const RBRACE: int := 0x7D

  const NULL_TEXT: Text := [0x6E, 0x75, 0x6C, 0x6C]
  const TRUE_TEXT: Text := [0x74, 0x72, 0x75, 0x65]
  const FALSE_TEXT: Text := [0x66, 0x61, 0x6C, 0x73, 0x65]

  /* ---------- Printing ---------- */

  function Digits(n: nat): (t: Text)
    ensures t != [] && AllDigits(t)
  {
    if n < 10 then [0x30 + n] else Digits(n / 10) + [0x30 + n % 10]
  }

  function PrintInt(n: int): Text
  {
    if n < 0 then [MINUS] + Digits(-n) else Digits(n)
  }

  function HexDigit(n: nat): CodePoint
    requires n < 16
  {
    if n < 10 then 0x30 + n else 0x57 + n
  }

  /** One character inside a string literal; characters outside ASCII are not escaped. */
  function EscapeChar(c: CodePoint): Text
  {
    if c == QUOTE || c == BACKSLASH then [BACKSLASH, c]
    else if c == 0x0A then [BACKSLASH, 0x6E]
    else if c == 0x0D then [BACKSLASH, 0x72]
    else if c == 0x09 then [BACKSLASH, 0x74]
    else if c == 0x0C then [BACKSLASH, 0x66]
    else if c == 0x08 then [BACKSLASH, 0x62]
    else if c < 0x20 then [BACKSLASH, 0x75, 0x30, 0x30, HexDigit(c / 16), HexDigit(c % 16)]
    else [c]
  }

  function Escape(t: Text): Text
  {
    if t == [] then [] else EscapeChar(t[0]) + Escape(t[1..])
  }

  function PrintString(t: Text): Text
  {
    [QUOTE] + Escape(t) + [QUOTE]
  }

  function Join(ts: seq<Text>): Text
  {
    if ts == [] then [] else if |ts| == 1 then ts[0] else ts[0] + [COMMA] + Join(ts[1..])
  }

  function PrintMember(m: Member<Text>): Text
  {
    PrintString(m.key) + [COLON] + m.value
  }

  function PrintMembers(ms: seq<Member<Text>>): Text
  {
    Join(Map(PrintMember, ms))
  }

  /** The canonical text: no white space, members sorted by key. */
  function Print(j: Json): Text
    requires WellFormed(j)
  {
    match j
    case Null => NULL_TEXT
    case Bool(b) => if b then TRUE_TEXT else FALSE_TEXT
    case Int(n) => PrintInt(n)
    case Float(r) => r
    case Str(t) => PrintString(t)
    case Arr(items) => [LBRACKET] + Join(PrintAll(items)) + [RBRACKET]
    case Obj(keys, items) =>
      [LBRACE] + PrintMembers(SortMembers(Zip(keys, PrintAll(items)))) + [RBRACE]
  }

  function PrintAll(js: seq<Json>): (r: seq<Text>)
    requires forall i :: 0 <= i < |js| ==> WellFormed(js[i])
    ensures |r| == |js|
    ensures forall i :: 0 <= i < |js| ==> r[i] == Print(js[i])
  {
    if js == [] then [] else [Print(js[0])] + PrintAll(js[1..])
  }

  /* ---------- Decoding ---------- */

  function DigitsValue(t: Text): nat
    requires AllDigits(t)
  {
    if t == [] then 0 else 10 * DigitsValue(t[..|t| - 1]) + (t[|t| - 1] - 0x30)
  }

  /** The length of the longest prefix made of number characters. */
  function NumberSpan(t: Text): (n: nat)
    ensures n <= |t|
  {
    if t != [] && IsNumberChar(t[0]) then 1 + NumberSpan(t[1..]) else 0
  }

  function ParseNumber(token: Text): Option<Json>
  {
    if IsIntToken(token) then
      Some(Int(if token[0] == MINUS then 0 - DigitsValue(token[1..]) else DigitsValue(token)))
    else if IsFloatToken(token) then Some(Float(token))
    else None
  }

  function HexValue(c: int): Option<nat>
  {
    if IsDigit(c) then Some(c - 0x30)
    else if 0x61 <= c <= 0x66 then Some(c - 0x57)
    else if 0x41 <= c <= 0x46 then Some(c - 0x37)
    else None
  }

  /** The character written by the escape sequence that follows a backslash, and its length. */
  function ParseEscape(t: Text): (r: Option<(CodePoint, nat)>)
    ensures r.Some? ==> 0 < r.value.1 <= |t|
  {
    if t == [] then None
    else if t[0] == QUOTE || t[0] == BACKSLASH || t[0] == 0x2F then Some((t[0], 1))
    else if t[0] == 0x6E then Some((0x0A, 1))
    else if t[0] == 0x72 then Some((0x0D, 1))
    else if t[0] == 0x74 then Some((0x09, 1))
    else if t[0] == 0x66 then Some((0x0C, 1))
    else if t[0] == 0x62 then Some((0x08, 1))
    else if t[0] == 0x75 && |t| >= 5 then
      match (HexValue(t[1]), HexValue(t[2]), HexValue(t[3]), HexValue(t[4]))
      case (Some(a), Some(b), Some(c), Some(d)) => HexQuad(a, b, c, d)
      case _ => None
    else None
  }

  function HexQuad(a: nat, b: nat, c: nat, d: nat): (r: Option<(CodePoint, nat)>)
    ensures r.Some? ==> r.value.1 == 5
  {
    var v := 4096 * a + 256 * b + 16 * c + d;
    if v < 0x1_0000 then Some((v, 5)) else None
  }

  /** The characters of a string literal up to its closing quote, and the text after the quote. */
  function ParseChars(t: Text): (r: Option<(Text, Text)>)
    ensures r.Some? ==> |r.value.1| < |t|
    decreases |t|
  {
    if t == [] then None
    else if t[0] == QUOTE then Some(([], t[1..]))
    else if t[0] == BACKSLASH then
      match ParseEscape(t[1..])
      case None => None
      case Some((c, n)) =>
        (match ParseChars(t[1 + n..])
         case None => None
         case Some((cs, rest)) => Some(([c] + cs, rest)))
    else if t[0] < 0x20 then None
    else
      match ParseChars(t[1..])
      case None => None
      case Some((cs, rest)) => Some(([t[0]] + cs, rest))
  }

  /** A value at the start of the text, and the text after it. */
  function Parse(t: Text): (r: Option<(Json, Text)>)
    ensures r.Some? ==> |r.value.1| < |t|
    decreases |t|, 1
  {
    if t == [] then None
    else if NULL_TEXT <= t then Some((Null, t[4..]))
    else if TRUE_TEXT <= t then Some((Bool(true), t[4..]))
    else if FALSE_TEXT <= t then Some((Bool(false), t[5..]))
    else if t[0] == QUOTE then
      match ParseChars(t[1..])
      case None => None
      case Some((cs, rest)) => Some((Str(cs), rest))
    else if t[0] == LBRACKET then
      if |t| > 1 && t[1] == RBRACKET then Some((Arr([]), t[2..]))
      else
        match ParseItems(t[1..])
        case None => None
        case Some((items, rest)) => Some((Arr(items), rest))
    else if t[0] == LBRACE then
      if |t| > 1 && t[1] == RBRACE then Some((Obj([], []), t[2..]))
      else
        match ParseMembers(t[1..])
        case None => None
        case Some((ms, rest)) => Some((Obj(Map(MemberKey, ms), Map(Value, ms)), rest))
    else
      var n := NumberSpan(t);
      match ParseNumber(t[..n])
      case None => None
      case Some(j) => if n == 0 then None else Some((j, t[n..]))
  }

  /** One or more values separated by commas, up to the closing bracket. */
  function ParseItems(t: Text): (r: Option<(seq<Json>, Text)>)
    ensures r.Some? ==> |r.value.1| < |t|
    decreases |t|, 2
  {
    match Parse(t)
    case None => None
    case Some((j, rest)) => MoreItems(j, rest)
  }

  function MoreItems(j: Json, t: Text): (r: Option<(seq<Json>, Text)>)
    ensures r.Some? ==> |r.value.1| < |t|
    decreases |t|, 3
  {
    if t == [] then None
    else if t[0] == RBRACKET then Some(([j], t[1..]))
    else if t[0] == COMMA then
      match ParseItems(t[1..])
      case None => None
      case Some((js, rest)) => Some(([j] + js, rest))
    else None
  }

  /** One or more members separated by commas, up to the closing brace. */
  function ParseMembers(t: Text): (r: Option<(seq<Member<Json>>, Text)>)
    ensures r.Some? ==> |r.value.1| < |t|
    decreases |t|, 2
  {
    if t == [] || t[0] != QUOTE then None
    else
      match ParseChars(t[1..])
      case None => None
      case Some((key, rest)) => ParseMemberValue(key, rest)
  }

  function ParseMemberValue(key: Text, t: Text): (r: Option<(seq<Member<Json>>, Text)>)
    ensures r.Some? ==> |r.value.1| < |t|
    decreases |t|, 4
  {
    if t == [] || t[0] != COLON then None
    else
      match Parse(t[1..])
      case None => None
      case Some((j, rest)) => MoreMembers(Member(key, j), rest)
  }

  function MoreMembers(m: Member<Json>, t: Text): (r: Option<(seq<Member<Json>>, Text)>)
    ensures r.Some? ==> |r.value.1| < |t|
    decreases |t|, 3
  {
    if t == [] then None
    else if t[0] == RBRACE then Some(([m], t[1..]))
    else if t[0] == COMMA then
      match ParseMembers(t[1..])
      case None => None
      case Some((ms, rest)) => Some(([m] + ms, rest))
    else None
  }

  /* ---------- The decoder undoes the printer ---------- */

  /** What may follow a value: nothing, or a character that cannot extend a number. */
  predicate Delimited(rest: Text)
  {
    rest == [] || !IsNumberChar(rest[0])
  }

  lemma {:induction false} DigitsRoundTrip(n: nat)
    ensures DigitsValue(Digits(n)) == n
  {
    if n >= 10 {
      DigitsRoundTrip(n / 10);
      assert Digits(n)[..|Digits(n)| - 1] == Digits(n / 10);
    } else {
      assert Digits(n)[..0] == [];
    }
  }

  lemma {:induction false} SpanOfToken(token: Text, rest: Text)
    requires forall i :: 0 <= i < |token| ==> IsNumberChar(token[i])
    requires Delimited(rest)
    ensures NumberSpan(token + rest) == |token|
  {
    if token == [] {
      assert token + rest == rest;
    } else {
      SpanOfToken(token[1..], rest);
      assert (token + rest)[1..] == token[1..] + rest;
      assert (token + rest)[0] == token[0];
    }
  }

  lemma {:induction false} TokenRoundTrip(token: Text, rest: Text, j: Json)
    requires token != [] && (IsDigit(token[0]) || token[0] == MINUS)
    requires forall i :: 0 <= i < |token| ==> IsNumberChar(token[i])
    requires Delimited(rest) && ParseNumber(token) == Some(j)
    ensures Parse(token + rest) == Some((j, rest))
  {
    var t := token + rest;
    SpanOfToken(token, rest);
    assert t[0] == token[0] && t[..|token|] == token && t[|token|..] == rest;
  }

  lemma {:induction false} IntRoundTrip(n: int, rest: Text)
    requires Delimited(rest)
    ensures Parse(PrintInt(n) + rest) == Some((Int(n), rest))
  {
    var d := Digits(if n < 0 then -n else n);
    DigitsRoundTrip(if n < 0 then -n else n);
    var token := PrintInt(n);
    if n < 0 {
      assert token[1..] == d;
    } else {
      assert IsDigit(d[0]);
    }
    TokenRoundTrip(token, rest, Int(n));
  }

  lemma EscapeRoundTrip(c: CodePoint, u: Text)
    ensures var e := EscapeChar(c);
      if e == [c] then c != QUOTE && c != BACKSLASH && c >= 0x20
      else e[0] == BACKSLASH && ParseEscape(e[1..] + u) == Some((c, |e| - 1))
  {
    var e := EscapeChar(c);
    if c < 0x20 && e[1] == 0x75 {
      var t := e[1..] + u;
      assert t[0] == 0x75 && t[1] == 0x30 && t[2] == 0x30 && t[3] == e[4] && t[4] == e[5];
      assert HexValue(t[3]) == Some(c / 16) && HexValue(t[4]) == Some(c % 16);
    } else if e != [c] {
      assert e[1..] + u == [e[1]] + u;
    }
  }

  lemma Assoc(a: Text, b: Text, c: Text)
    ensures (a + b) + c == a + (b + c)
  {
  }

  lemma Behind(c: CodePoint, u: Text)
    ensures ([c] + u)[0] == c && ([c] + u)[1..] == u
  {
  }

  lemma {:induction false} ParseCharsStep(c: CodePoint, u: Text, cs: Text, rest: Text)
    requires ParseChars(u) == Some((cs, rest))
    ensures ParseChars(EscapeChar(c) + u) == Some(([c] + cs, rest))
  {
    var e := EscapeChar(c);
    EscapeRoundTrip(c, u);
    if e == [c] {
      Behind(c, u);
    } else {
      assert (e + u)[0] == BACKSLASH;
      assert (e + u)[1..] == e[1..] + u;
      assert (e + u)[|e|..] == u;
    }
  }

  lemma {:induction false} CharsRoundTrip(s: Text, rest: Text)
    ensures ParseChars(Escape(s) + ([QUOTE] + rest)) == Some((s, rest))
  {
    var v := [QUOTE] + rest;
    if s == [] {
      Behind(QUOTE, rest);
      assert [] + v == v;
    } else {
      CharsRoundTrip(s[1..], rest);
      ParseCharsStep(s[0], Escape(s[1..]) + v, s[1..], rest);
      Assoc(EscapeChar(s[0]), Escape(s[1..]), v);
      assert [s[0]] + s[1..] == s;
    }
  }

  /** A printed string followed by anything, with the opening quote split off. */
  lemma {:induction false} StringText(s: Text, rest: Text)
    ensures PrintString(s) + rest == [QUOTE] + (Escape(s) + ([QUOTE] + rest))
  {
  }

  lemma {:induction false} ParseStringStep(u: Text, cs: Text, rest: Text)
    requires ParseChars(u) == Some((cs, rest))
    ensures Parse([QUOTE] + u) == Some((Str(cs), rest))
  {
    Behind(QUOTE, u);
  }

  lemma {:induction false} StringRoundTrip(s: Text, rest: Text)
    ensures Parse(PrintString(s) + rest) == Some((Str(s), rest))
  {
    CharsRoundTrip(s, rest);
    StringText(s, rest);
    ParseStringStep(Escape(s) + ([QUOTE] + rest), s, rest);
  }

  /** No value starts with a closing bracket or brace, nor with a delimiter. */
  lemma {:induction false} PrintHead(j: Json)
    requires WellFormed(j)
    ensures Print(j) != [] && Print(j)[0] != RBRACKET && Print(j)[0] != RBRACE
  {
    match j
    case Int(n) =>
      assert n >= 0 ==> IsDigit(Digits(n)[0]);
    case _ =>
  }

  /** Inside `parent`, m and n are the printed and the normal form of one member. */
  ghost predicate Prints(parent: Json, m: Member<Text>, n: Member<Json>)
  {
    m.key == n.key && exists x: Json :: x < parent && WellFormed(x) && m.value == Print(x) && n.value == Normal(x)
  }

  lemma {:induction false} ParseItemsLast(p: Text, j: Json, rest: Text)
    requires Parse(p + ([RBRACKET] + rest)) == Some((j, [RBRACKET] + rest))
    ensures ParseItems(p + ([RBRACKET] + rest)) == Some(([j], rest))
  {
    Behind(RBRACKET, rest);
  }

  lemma {:induction false} ParseItemsMore(p: Text, j: Json, u: Text, js: seq<Json>, rest: Text)
    requires Parse(p + ([COMMA] + u)) == Some((j, [COMMA] + u))
    requires ParseItems(u) == Some((js, rest))
    ensures ParseItems(p + ([COMMA] + u)) == Some(([j] + js, rest))
  {
    Behind(COMMA, u);
  }

  lemma {:induction false} JoinMore(ts: seq<Text>, rest: Text)
    requires |ts| > 1
    ensures Join(ts) + rest == ts[0] + ([COMMA] + (Join(ts[1..]) + rest))
  {
  }

  lemma {:induction false} ItemsTail(ts: seq<Text>, ns: seq<Json>, u: Text, rest: Text)
    requires |ts| == |ns| > 1
    requires u == Join(ts[1..]) + ([RBRACKET] + rest)
    requires Parse(ts[0] + ([COMMA] + u)) == Some((ns[0], [COMMA] + u))
    requires ParseItems(u) == Some((ns[1..], rest))
    ensures ParseItems(Join(ts) + ([RBRACKET] + rest)) == Some((ns, rest))
  {
    ParseItemsMore(ts[0], ns[0], u, ns[1..], rest);
    JoinMore(ts, [RBRACKET] + rest);
    assert ns == [ns[0]] + ns[1..];
  }

  lemma {:induction false} ItemsRoundTrip(parent: Json, items: seq<Json>, rest: Text)
    requires items != []
    requires forall i :: 0 <= i < |items| ==> WellFormed(items[i]) && items[i] < parent
    ensures ParseItems(Join(PrintAll(items)) + ([RBRACKET] + rest)) == Some((NormalAll(items), rest))
    decreases parent, 0, |items|
  {
    if |items| == 1 {
      RoundTrip(items[0], [RBRACKET] + rest);
      ParseItemsLast(Print(items[0]), Normal(items[0]), rest);
      assert NormalAll(items) == [Normal(items[0])];
    } else {
      var u := Join(PrintAll(items[1..])) + ([RBRACKET] + rest);
      RoundTrip(items[0], [COMMA] + u);
      ItemsRoundTrip(parent, items[1..], rest);
      assert PrintAll(items)[1..] == PrintAll(items[1..]) && NormalAll(items)[1..] == NormalAll(items[1..]);
      ItemsTail(PrintAll(items), NormalAll(items), u, rest);
    }
  }

  /** The text of a member: its key, a colon, its value and what follows. */
  lemma MemberText(m: Member<Text>, rest: Text)
    ensures PrintMember(m) + rest == [QUOTE] + (Escape(m.key) + ([QUOTE] + ([COLON] + (m.value + rest))))
  {
    StringText(m.key, [COLON] + (m.value + rest));
    assert PrintMember(m) + rest == PrintString(m.key) + ([COLON] + (m.value + rest));
  }

  lemma {:induction false} ParseMemberStep(m: Member<Text>, j: Json, rest: Text)
    requires Parse(m.value + rest) == Some((j, rest))
    ensures ParseMembers(PrintMember(m) + rest) == MoreMembers(Member(m.key, j), rest)
  {
    var v := [COLON] + (m.value + rest);
    MemberText(m, rest);
    CharsRoundTrip(m.key, v);
    Behind(QUOTE, Escape(m.key) + ([QUOTE] + v));
    Behind(COLON, m.value + rest);
  }

  lemma {:induction false} MoreMembersLast(m: Member<Json>, rest: Text)
    ensures MoreMembers(m, [RBRACE] + rest) == Some(([m], rest))
  {
    Behind(RBRACE, rest);
  }

  lemma {:induction false} MoreMembersComma(m: Member<Json>, u: Text, ns: seq<Member<Json>>, rest: Text)
    requires ParseMembers(u) == Some((ns, rest))
    ensures MoreMembers(m, [COMMA] + u) == Some(([m] + ns, rest))
  {
    Behind(COMMA, u);
  }

  lemma {:induction false} MemberRoundTrip(parent: Json, m: Member<Text>, n: Member<Json>, v: Text)
    requires Prints(parent, m, n) && Delimited(v)
    ensures Parse(m.value + v) == Some((n.value, v))
    decreases parent, 0, 0
  {
    var x: Json :| x < parent && WellFormed(x) && m.value == Print(x) && n.value == Normal(x);
    RoundTrip(x, v);
  }

  lemma {:induction false} MembersTail(ms: seq<Member<Text>>, ns: seq<Member<Json>>, u: Text, rest: Text)
    requires |ms| == |ns| > 1 && ms[0].key == ns[0].key
    requires u == PrintMembers(ms[1..]) + ([RBRACE] + rest)
    requires Parse(ms[0].value + ([COMMA] + u)) == Some((ns[0].value, [COMMA] + u))
    requires ParseMembers(u) == Some((ns[1..], rest))
    ensures ParseMembers(PrintMembers(ms) + ([RBRACE] + rest)) == Some((ns, rest))
  {
    ParseMemberStep(ms[0], ns[0].value, [COMMA] + u);
    MoreMembersComma(ns[0], u, ns[1..], rest);
    JoinMore(Map(PrintMember, ms), [RBRACE] + rest);
    assert ns == [ns[0]] + ns[1..];
  }

  lemma {:induction false} MembersLast(ms: seq<Member<Text>>, ns: seq<Member<Json>>, rest: Text)
    requires |ms| == |ns| == 1 && ms[0].key == ns[0].key
    requires Parse(ms[0].value + ([RBRACE] + rest)) == Some((ns[0].value, [RBRACE] + rest))
    ensures ParseMembers(PrintMembers(ms) + ([RBRACE] + rest)) == Some((ns, rest))
  {
    ParseMemberStep(ms[0], ns[0].value, [RBRACE] + rest);
    MoreMembersLast(ns[0], rest);
    assert ns == [ns[0]];
  }

  lemma {:induction false} MembersRoundTrip(parent: Json, ms: seq<Member<Text>>, ns: seq<Member<Json>>, rest: Text)
    requires |ms| == |ns| > 0
    requires forall i :: 0 <= i < |ms| ==> Prints(parent, ms[i], ns[i])
    ensures ParseMembers(PrintMembers(ms) + ([RBRACE] + rest)) == Some((ns, rest))
    decreases parent, 0, |ms|
  {
    assert Prints(parent, ms[0], ns[0]);
    if |ms| == 1 {
      MemberRoundTrip(parent, ms[0], ns[0], [RBRACE] + rest);
      MembersLast(ms, ns, rest);
    } else {
      var u := PrintMembers(ms[1..]) + ([RBRACE] + rest);
      MemberRoundTrip(parent, ms[0], ns[0], [COMMA] + u);
      forall i | 0 <= i < |ms| - 1 ensures Prints(parent, ms[1..][i], ns[1..][i]) {
        assert Prints(parent, ms[i + 1], ns[i + 1]);
      }
      MembersRoundTrip(parent, ms[1..], ns[1..], rest);
      MembersTail(ms, ns, u, rest);
    }
  }

  lemma {:induction false} ParseArray(u: Text, js: seq<Json>, rest: Text)
    requires u != [] && u[0] != RBRACKET && ParseItems(u) == Some((js, rest))
    ensures Parse([LBRACKET] + u) == Some((Arr(js), rest))
  {
    Behind(LBRACKET, u);
  }

  lemma {:induction false} ParseEmptyArray(rest: Text)
    ensures Parse([LBRACKET] + ([RBRACKET] + rest)) == Some((Arr([]), rest))
  {
    var t := [LBRACKET] + ([RBRACKET] + rest);
    assert t[0] == LBRACKET && t[1] == RBRACKET;
    assert t[2..] == rest;
  }

  lemma {:induction false} ArrayText(j: Json, rest: Text)
    requires j.Arr? && WellFormed(j)
    ensures Print(j) + rest == [LBRACKET] + (Join(PrintAll(j.items)) + ([RBRACKET] + rest))
  {
    var u := Join(PrintAll(j.items));
    Assoc([LBRACKET], u, [RBRACKET]);
    Assoc([LBRACKET], u + [RBRACKET], rest);
    Assoc(u, [RBRACKET], rest);
  }

  lemma {:induction false} ArrayRoundTrip(j: Json, rest: Text)
    requires j.Arr? && WellFormed(j)
    ensures Parse(Print(j) + rest) == Some((Normal(j), rest))
    decreases j, 1
  {
    var v := [RBRACKET] + rest;
    ArrayText(j, rest);
    if j.items == [] {
      ParseEmptyArray(rest);
      assert [] + v == v;
    } else {
      PrintHead(j.items[0]);
      ItemsRoundTrip(j, j.items, rest);
      assert (Join(PrintAll(j.items)) + v)[0] == Print(j.items[0])[0];
      ParseArray(Join(PrintAll(j.items)) + v, NormalAll(j.items), rest);
    }
  }

  lemma {:induction false} MembersPrint(j: Json, i: int)
    requires j.Obj? && WellFormed(j) && 0 <= i < |j.items|
    ensures Prints(j, SortMembers(Zip(j.keys, PrintAll(j.items)))[i], SortMembers(Zip(j.keys, NormalAll(j.items)))[i])
  {
    var ps, ns := PrintAll(j.items), NormalAll(j.items);
    SortTogether(j.keys, ps, ns, i);
    var m, n := SortMembers(Zip(j.keys, ps))[i], SortMembers(Zip(j.keys, ns))[i];
    var k :| 0 <= k < |j.keys| && m == Member(j.keys[k], ps[k]) && n == Member(j.keys[k], ns[k]);
    assert j.items[k] < j && m.value == Print(j.items[k]) && n.value == Normal(j.items[k]);
  }

  lemma MembersHead(ms: seq<Member<Text>>, rest: Text)
    requires ms != []
    ensures var t := PrintMembers(ms) + rest; t != [] && t[0] == QUOTE
  {
  }

  lemma {:induction false} ParseObject(u: Text, ns: seq<Member<Json>>, rest: Text)
    requires u != [] && u[0] == QUOTE && ParseMembers(u) == Some((ns, rest))
    ensures Parse([LBRACE] + u) == Some((Obj(Map(MemberKey, ns), Map(Value, ns)), rest))
  {
    Behind(LBRACE, u);
  }

  lemma {:induction false} ParseEmptyObject(rest: Text)
    ensures Parse([LBRACE] + ([RBRACE] + rest)) == Some((Obj([], []), rest))
  {
    var t := [LBRACE] + ([RBRACE] + rest);
    assert t[0] == LBRACE && t[1] == RBRACE;
    assert t[2..] == rest;
  }

  /** An object whose printed members are ms and whose normalized members are ns. */
  lemma {:induction false} ObjectStep(parent: Json, ms: seq<Member<Text>>, ns: seq<Member<Json>>, rest: Text)
    requires |ms| == |ns|
    requires forall i :: 0 <= i < |ms| ==> Prints(parent, ms[i], ns[i])
    ensures Parse([LBRACE] + (PrintMembers(ms) + ([RBRACE] + rest))) ==
      Some((Obj(Map(MemberKey, ns), Map(Value, ns)), rest))
    decreases parent, 0, |ms| + 1
  {
    var v := [RBRACE] + rest;
    if ms == [] {
      ParseEmptyObject(rest);
      assert [] + v == v;
    } else {
      MembersRoundTrip(parent, ms, ns, rest);
      MembersHead(ms, v);
      ParseObject(PrintMembers(ms) + v, ns, rest);
    }
  }

  lemma {:induction false} ObjectText(j: Json, ms: seq<Member<Text>>, rest: Text)
    requires j.Obj? && WellFormed(j) && ms == SortMembers(Zip(j.keys, PrintAll(j.items)))
    ensures Print(j) + rest == [LBRACE] + (PrintMembers(ms) + ([RBRACE] + rest))
  {
    Assoc([LBRACE], PrintMembers(ms), [RBRACE]);
    Assoc([LBRACE], PrintMembers(ms) + [RBRACE], rest);
    Assoc(PrintMembers(ms), [RBRACE], rest);
  }

  lemma {:induction false} ObjectRoundTrip(j: Json, rest: Text)
    requires j.Obj? && WellFormed(j)
    ensures Parse(Print(j) + rest) == Some((Normal(j), rest))
    decreases j, 1
  {
    var ms, ns := SortMembers(Zip(j.keys, PrintAll(j.items))), SortMembers(Zip(j.keys, NormalAll(j.items)));
    ObjectText(j, ms, rest);
    forall i | 0 <= i < |ms| ensures Prints(j, ms[i], ns[i]) {
      MembersPrint(j, i);
    }
    ObjectStep(j, ms, ns, rest);
  }

  lemma {:induction false} WordRoundTrip(j: Json, rest: Text)
    requires j.Null? || j.Bool?
    ensures Parse(Print(j) + rest) == Some((j, rest))
  {
    var t := Print(j) + rest;
    assert t[..|Print(j)|] == Print(j) && t[|Print(j)|..] == rest;
    assert t[0] == Print(j)[0];
  }

  /** Decoding the canonical text of a value, in any context, gives the value back. */
  lemma {:induction false} RoundTrip(j: Json, rest: Text)
    requires WellFormed(j) && Delimited(rest)
    ensures Parse(Print(j) + rest) == Some((Normal(j), rest))
    decreases j
  {
    match j
    case Null => WordRoundTrip(j, rest);
    case Bool(_) => WordRoundTrip(j, rest);
    case Int(n) => IntRoundTrip(n, rest);
    case Float(r) => TokenRoundTrip(r, rest, j);
    case Str(s) => StringRoundTrip(s, rest);
    case Arr(_) => ArrayRoundTrip(j, rest);
    case Obj(_, _) => ObjectRoundTrip(j, rest);
  }

  /* ---------- Unique decodability ---------- */

  /** A value and its normal form have the same canonical text. */
  lemma {:induction false} PrintNormal(a: Json, b: Json)
    requires WellFormed(a) && WellFormed(b) && Normal(a) == Normal(b)
    ensures Print(a) == Print(b)
    decreases a
  {
    match a
    case Arr(items) =>
      PrintNormalAll(a, items, b.items);
      assert |NormalAll(items)| == |NormalAll(b.items)|;
      assert forall i :: 0 <= i < |items| ==> NormalAll(items)[i] == NormalAll(b.items)[i];
      assert PrintAll(items) == PrintAll(b.items);
    case Obj(keys, items) =>
      PrintNormalAll(a, items, b.items);
      PrintNormalObject(a, b);
    case _ =>
  }

  lemma {:induction false} PrintNormalAll(a: Json, xs: seq<Json>, ys: seq<Json>)
    requires forall i :: 0 <= i < |xs| ==> WellFormed(xs[i]) && xs[i] < a
    requires forall i :: 0 <= i < |ys| ==> WellFormed(ys[i])
    ensures forall i, k :: 0 <= i < |xs| && 0 <= k < |ys| ==>
      (NormalAll(xs)[i] == NormalAll(ys)[k] ==> PrintAll(xs)[i] == PrintAll(ys)[k])
    decreases a, 0
  {
    forall i, k | 0 <= i < |xs| && 0 <= k < |ys| && NormalAll(xs)[i] == NormalAll(ys)[k]
      ensures PrintAll(xs)[i] == PrintAll(ys)[k]
    {
      PrintNormal(xs[i], ys[k]);
    }
  }

  lemma {:induction false} PrintNormalObject(a: Json, b: Json)
    requires a.Obj? && b.Obj? && WellFormed(a) && WellFormed(b) && Normal(a) == Normal(b)
    requires forall i, k :: 0 <= i < |a.items| && 0 <= k < |b.items| ==>
      (NormalAll(a.items)[i] == NormalAll(b.items)[k] ==> PrintAll(a.items)[i] == PrintAll(b.items)[k])
    ensures Print(a) == Print(b)
  {
    NormalObject(a, b);
    assert SameMembers(a.keys, PrintAll(a.items), b.keys, PrintAll(b.items));
    SameMembersPermuted(a.keys, PrintAll(a.items), b.keys, PrintAll(b.items));
    ZipKeys(a.keys, PrintAll(a.items));
    SortCanonical(Zip(a.keys, PrintAll(a.items)), Zip(b.keys, PrintAll(b.items)), MemberKey);
  }

  /** Two values have the same canonical text exactly when they are equal up to member order. */
  lemma {:induction false} PrintIffSame(a: Json, b: Json)
    requires WellFormed(a) && WellFormed(b)
    ensures Print(a) == Print(b) <==> Same(a, b)
  {
    NormalIffSame(a, b);
    if Print(a) == Print(b) {
      RoundTrip(a, []);
      RoundTrip(b, []);
      assert Print(a) + [] == Print(b) + [];
    }
    if Normal(a) == Normal(b) {
      PrintNormal(a, b);
    }
  }

  /** Canonical texts are a prefix-free code: no text is the start of another in a delimited context. */
  lemma {:induction false} PrintPrefixFree(a: Json, b: Json, r: Text, s: Text)
    requires WellFormed(a) && WellFormed(b) && Delimited(r) && Delimited(s)
    requires Print(a) + r == Print(b) + s
    ensures Same(a, b) && r == s
  {
    RoundTrip(a, r);
    RoundTrip(b, s);
    NormalIffSame(a, b);
  }
}
