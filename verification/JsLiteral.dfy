/** Printing a value as a JavaScript string literal, and reading it back. */
module JsLiteral {
  import opened Wrappers

  const LS := '\U{2028}'
  const PS := '\U{2029}'

  function Hex(d: nat): char
    requires d < 16
  {
    if d < 10 then '0' + d as char else 'a' + (d - 10) as char
  }

  /** How a JSON serializer writes one character of a string. */
  function Escape(c: char): string {
    if c == '"' then "\\\""
    else if c == '\\' then "\\\\"
    else if c == '\U{0008}' then "\\b"
    else if c == '\U{000C}' then "\\f"
    else if c == '\n' then "\\n"
    else if c == '\r' then "\\r"
    else if c == '\t' then "\\t"
    else if c < ' ' then "\\u00" + [Hex(c as nat / 16), Hex(c as nat % 16)]
    else [c]
  }

  function EscapeAll(s: string): string {
    if s == "" then "" else Escape(s[0]) + EscapeAll(s[1..])
  }

  function ToJson(s: string): string {
    "\"" + EscapeAll(s) + "\""
  }

  /** Every occurrence of one character replaced by a string. */
  function Replace(s: string, c: char, text: string): string {
    if s == "" then "" else (if s[0] == c then text else [s[0]]) + Replace(s[1..], c, text)
  }

  /** The five passes, in their order. */
  function Passes(s: string): string {
    Replace(Replace(Replace(Replace(Replace(s,
      '<', "\\u003c"), '>', "\\u003e"), '&', "\\u0026"), LS, "\\u2028"), PS, "\\u2029")
  }

  function JsStringLiteral(value: string): string {
    Passes(ToJson(value))
  }

  // ------------------------------------------------------------------ reading (RFC 8259, section 7)

  function HexValue(c: char): Option<nat> {
    if '0' <= c <= '9' then Some(c as nat - '0' as nat)
    else if 'a' <= c <= 'f' then Some(c as nat - 'a' as nat + 10)
    else if 'A' <= c <= 'F' then Some(c as nat - 'A' as nat + 10)
    else None
  }

  /** The code unit of four hexadecimal digits. */
  function Unit(s: string): (u: Option<nat>)
    requires |s| == 4
    ensures u.Some? ==> u.value < 0x1_0000
  {
    var (a, b, c, d) := (HexValue(s[0]), HexValue(s[1]), HexValue(s[2]), HexValue(s[3]));
    if a.Some? && b.Some? && c.Some? && d.Some?
    then Some(a.value * 4096 + b.value * 256 + c.value * 16 + d.value) else None
  }

  function Simple(c: char): Option<char> {
    if c == '"' || c == '\\' || c == '/' then Some(c)
    else if c == 'b' then Some('\U{0008}')
    else if c == 'f' then Some('\U{000C}')
    else if c == 'n' then Some('\n')
    else if c == 'r' then Some('\r')
    else if c == 't' then Some('\t')
    else None
  }

  function Cons(c: char, rest: Option<string>): Option<string> {
    if rest.Some? then Some([c] + rest.value) else None
  }

  /** The text up to the closing quotation mark, which must be the end of the input. */
  function DecodeRest(s: string): Option<string>
    decreases |s|
  {
    if s == "" then None
    else if s[0] == '"' then (if |s| == 1 then Some("") else None)
    else if s[0] != '\\' then (if s[0] < ' ' then None else Cons(s[0], DecodeRest(s[1..])))
    else if |s| == 1 then None
    else if s[1] != 'u' then
      (var c := Simple(s[1]); if c.Some? then Cons(c.value, DecodeRest(s[2..])) else None)
    else if |s| < 6 then None
    else
      var u := Unit(s[2..6]);
      if u.None? then None
      else if 0xD800 <= u.value < 0xDC00 then DecodePair(u.value, s)
      else if 0xDC00 <= u.value < 0xE000 then None
      else Cons(u.value as char, DecodeRest(s[6..]))
  }

  /** A leading surrogate stands for a character only together with a trailing one. */
  function DecodePair(lead: nat, s: string): Option<string>
    requires 0xD800 <= lead < 0xDC00 && |s| >= 6
    decreases |s|, 0
  {
    if |s| < 12 || s[6] != '\\' || s[7] != 'u' then None
    else
      var trail := Unit(s[8..12]);
      if trail.None? || !(0xDC00 <= trail.value < 0xE000) then None
      else Cons((0x1_0000 + (lead - 0xD800) * 0x400 + (trail.value - 0xDC00)) as char, DecodeRest(s[12..]))
  }

  function Decode(s: string): Option<string> {
    if s != "" && s[0] == '"' then DecodeRest(s[1..]) else None
  }

  // ------------------------------------------------------------------ the passes, character by character

  predicate Special(c: char) {
    c == '<' || c == '>' || c == '&' || c == LS || c == PS
  }

  predicate Plain(s: string) {
    forall c :: c in s ==> !Special(c)
  }

  lemma {:induction false} ReplaceConcat(a: string, b: string, c: char, r: string)
    ensures Replace(a + b, c, r) == Replace(a, c, r) + Replace(b, c, r)
  {
    if a == "" {
      assert a + b == b;
    } else {
      assert (a + b)[0] == a[0] && (a + b)[1..] == a[1..] + b;
      ReplaceConcat(a[1..], b, c, r);
    }
  }

  lemma PassesConcat(a: string, b: string)
    ensures Passes(a + b) == Passes(a) + Passes(b)
  {
    ReplaceConcat(a, b, '<', "\\u003c");
    var a1, b1 := Replace(a, '<', "\\u003c"), Replace(b, '<', "\\u003c");
    ReplaceConcat(a1, b1, '>', "\\u003e");
    var a2, b2 := Replace(a1, '>', "\\u003e"), Replace(b1, '>', "\\u003e");
    ReplaceConcat(a2, b2, '&', "\\u0026");
    var a3, b3 := Replace(a2, '&', "\\u0026"), Replace(b2, '&', "\\u0026");
    ReplaceConcat(a3, b3, LS, "\\u2028");
    ReplaceConcat(Replace(a3, LS, "\\u2028"), Replace(b3, LS, "\\u2028"), PS, "\\u2029");
  }

  lemma {:induction false} ReplaceAbsent(s: string, c: char, r: string)
    requires c !in s
    ensures Replace(s, c, r) == s
  {
    if s != "" {
      ReplaceAbsent(s[1..], c, r);
      assert s == [s[0]] + s[1..];
    }
  }

  lemma PassesPlain(s: string)
    requires Plain(s)
    ensures Passes(s) == s
  {
    ReplaceAbsent(s, '<', "\\u003c");
    ReplaceAbsent(s, '>', "\\u003e");
    ReplaceAbsent(s, '&', "\\u0026");
    ReplaceAbsent(s, LS, "\\u2028");
    ReplaceAbsent(s, PS, "\\u2029");
  }

  lemma ReplaceOne(c: char, r: string)
    ensures Replace([c], c, r) == r
  {
    assert [c][1..] == "" && r + "" == r;
  }

  /** What the passes leave for one character of the value. */
  function Final(c: char): string {
    if c == '<' then "\\u003c"
    else if c == '>' then "\\u003e"
    else if c == '&' then "\\u0026"
    else if c == LS then "\\u2028"
    else if c == PS then "\\u2029"
    else Escape(c)
  }

  lemma EscapesArePlain(c: char)
    requires !Special(c)
    ensures Plain(Escape(c))
  {
  }

  /** Five passes over one character's escape: an escape sequence is never touched, a special character becomes one. */
  lemma PassesOfOne(c: char)
    ensures Passes(Escape(c)) == Final(c) && Plain(Final(c))
  {
    hide Passes, Replace;
    if !Special(c) {
      EscapesArePlain(c);
      PassesPlain(Escape(c));
    } else {
      SpecialPasses(c);
    }
  }

  lemma SpecialPasses(c: char)
    requires Special(c)
    ensures Passes([c]) == Final(c)
  {
    hide Replace;
    var r := Final(c);
    ReplaceOne(c, r);
    if c != '<' { ReplaceAbsent([c], '<', "\\u003c"); }
    if c != '<' && c != '>' { ReplaceAbsent([c], '>', "\\u003e"); }
    if c == LS || c == PS { ReplaceAbsent([c], '&', "\\u0026"); }
    if c == PS { ReplaceAbsent([c], LS, "\\u2028"); }
    ReplaceAbsent(r, '>', "\\u003e");
    ReplaceAbsent(r, '&', "\\u0026");
    ReplaceAbsent(r, LS, "\\u2028");
    ReplaceAbsent(r, PS, "\\u2029");
  }

  function FinalAll(s: string): string {
    if s == "" then "" else Final(s[0]) + FinalAll(s[1..])
  }

  lemma {:induction false} PassesOfAll(s: string)
    ensures Passes(EscapeAll(s)) == FinalAll(s) && Plain(FinalAll(s))
  {
    if s != "" {
      PassesConcat(Escape(s[0]), EscapeAll(s[1..]));
      PassesOfOne(s[0]);
      PassesOfAll(s[1..]);
    }
  }

  /** The literal is the value written character by character between quotes: no pass lands inside an escape. */
  lemma LiteralIsCharByChar(value: string)
    ensures JsStringLiteral(value) == "\"" + FinalAll(value) + "\""
  {
    PassesConcat("\"" + EscapeAll(value), "\"");
    PassesConcat("\"", EscapeAll(value));
    PassesPlain("\"");
    PassesOfAll(value);
  }

  /** Nothing in the literal can end a script element, start an entity or break the line. */
  lemma LiteralHasNoSpecials(value: string)
    ensures forall c :: c in JsStringLiteral(value) ==> c != '<' && c != '>' && c != '&' && c != LS && c != PS
  {
    LiteralIsCharByChar(value);
    PassesOfAll(value);
  }

  // ------------------------------------------------------------------ round trip

  lemma HexRoundTrip(d: nat)
    requires d < 16
    ensures HexValue(Hex(d)) == Some(d)
  {
  }

  lemma DecodeUnit(a: char, b: char, c: char, d: char, rest: string, u: nat)
    requires Unit([a, b, c, d]) == Some(u) && !(0xD800 <= u < 0xE000)
    ensures DecodeRest("\\u" + [a, b, c, d] + rest) == Cons(u as char, DecodeRest(rest))
  {
    var s := "\\u" + [a, b, c, d] + rest;
    assert s[2..6] == [a, b, c, d] && s[6..] == rest;
  }

  lemma DecodeSimple(e: char, c: char, rest: string)
    requires Simple(e) == Some(c)
    ensures DecodeRest(['\\', e] + rest) == Cons(c, DecodeRest(rest))
  {
    var s := ['\\', e] + rest;
    assert s[2..] == rest;
  }

  lemma DecodeRaw(c: char, rest: string)
    requires c != '"' && c != '\\' && c >= ' '
    ensures DecodeRest([c] + rest) == Cons(c, DecodeRest(rest))
  {
    assert ([c] + rest)[1..] == rest;
  }

  lemma DecodeControl(c: char, rest: string)
    requires c < ' '
    ensures DecodeRest("\\u00" + [Hex(c as nat / 16), Hex(c as nat % 16)] + rest) == Cons(c, DecodeRest(rest))
  {
    var (h, l) := (Hex(c as nat / 16), Hex(c as nat % 16));
    HexRoundTrip(c as nat / 16);
    HexRoundTrip(c as nat % 16);
    DecodeUnit('0', '0', h, l, rest, c as nat);
    assert "\\u00" + [h, l] + rest == "\\u" + ['0', '0', h, l] + rest;
  }

  lemma DecodeSpecial(c: char, rest: string)
    requires Special(c)
    ensures DecodeRest(Final(c) + rest) == Cons(c, DecodeRest(rest))
  {
    var f := Final(c);
    assert f == "\\u" + [f[2], f[3], f[4], f[5]];
    DecodeUnit(f[2], f[3], f[4], f[5], rest, c as nat);
  }

  lemma DecodeOne(c: char, rest: string)
    ensures DecodeRest(Final(c) + rest) == Cons(c, DecodeRest(rest))
  {
    hide DecodeRest;
    if Special(c) {
      DecodeSpecial(c, rest);
    } else if c == '"' || c == '\\' {
      DecodeSimple(c, c, rest);
    } else if c == '\U{0008}' {
      DecodeSimple('b', c, rest);
    } else if c == '\U{000C}' {
      DecodeSimple('f', c, rest);
    } else if c == '\n' {
      DecodeSimple('n', c, rest);
    } else if c == '\r' {
      DecodeSimple('r', c, rest);
    } else if c == '\t' {
      DecodeSimple('t', c, rest);
    } else if c < ' ' {
      DecodeControl(c, rest);
    } else {
      DecodeRaw(c, rest);
    }
  }

  lemma {:induction false} DecodeAll(s: string)
    ensures DecodeRest(FinalAll(s) + "\"") == Some(s)
  {
    if s == "" {
      assert FinalAll(s) + "\"" == "\"";
    } else {
      DecodeOne(s[0], FinalAll(s[1..]) + "\"");
      assert FinalAll(s) + "\"" == Final(s[0]) + (FinalAll(s[1..]) + "\"");
      DecodeAll(s[1..]);
      assert s == [s[0]] + s[1..];
    }
  }

  /** Every string reads back from its literal as itself. */
  lemma LiteralRoundTrip(value: string)
    ensures Decode(JsStringLiteral(value)) == Some(value)
  {
    LiteralIsCharByChar(value);
    var literal := JsStringLiteral(value);
    assert literal[1..] == FinalAll(value) + "\"";
    DecodeAll(value);
  }
}
