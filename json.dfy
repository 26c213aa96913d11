/**
 * The subset of `JSON.stringify(value, null, 2)` that the converter relies
 * on: plain objects, strings, integral numbers, booleans and null, with
 * properties whose value is `undefined` or a function omitted. String
 * quoting is given together with its inverse, the JSON string decoder.
 */
module Json {
  import opened JsValues

  datatype Option<T> = None | Some(value: T)

  // ---------------------------------------------------------------------
  // String quoting (QuoteJSONString)

  function HexDigit(d: nat): (c: char)
    requires d < 16
  {
    "0123456789abcdef"[d]
  }

  predicate IsHexDigit(c: char) {
    '0' <= c <= '9' || 'a' <= c <= 'f' || 'A' <= c <= 'F'
  }

  function HexValue(c: char): (d: nat)
    requires IsHexDigit(c)
    ensures d < 16
  {
    if '0' <= c <= '9' then c as int - '0' as int
    else if 'a' <= c <= 'f' then c as int - 'a' as int + 10
    else c as int - 'A' as int + 10
  }

  /** The JSON text of one character inside a string literal. */
  function EscapeChar(c: char): string {
    if c == '"' then "\\\""
    else if c == '\\' then "\\\\"
    else if c == '\U{8}' then "\\b"
    else if c == '\t' then "\\t"
    else if c == '\n' then "\\n"
    else if c == '\U{C}' then "\\f"
    else if c == '\r' then "\\r"
    else if (c as int) < 0x20 then "\\u00" + [HexDigit(c as int / 16), HexDigit(c as int % 16)]
    else [c]
  }

  function Escape(s: string): string {
    if s == [] then [] else EscapeChar(s[0]) + Escape(s[1..])
  }

  /** A JSON string literal holding `s`. */
  function Quote(s: string): (q: string)
    ensures |q| >= 2 && q[0] == '"' && q[|q| - 1] == '"'
  {
    "\"" + Escape(s) + "\""
  }

  function Cons(c: char, rest: Option<string>): Option<string> {
    if rest.Some? then Some([c] + rest.value) else None
  }

  /**
   * Decodes the body of a JSON string literal; `None` for text that is not
   * a valid body (a bare quote or control character, an unknown escape, an
   * escape of a lone surrogate).
   */
  function Unescape(t: string): Option<string>
    decreases |t|
  {
    if t == [] then Some([])
    else if t[0] == '\\' then
      if |t| < 2 then None
      else if t[1] == '"' then Cons('"', Unescape(t[2..]))
      else if t[1] == '\\' then Cons('\\', Unescape(t[2..]))
      else if t[1] == '/' then Cons('/', Unescape(t[2..]))
      else if t[1] == 'b' then Cons('\U{8}', Unescape(t[2..]))
      else if t[1] == 't' then Cons('\t', Unescape(t[2..]))
      else if t[1] == 'n' then Cons('\n', Unescape(t[2..]))
      else if t[1] == 'f' then Cons('\U{C}', Unescape(t[2..]))
      else if t[1] == 'r' then Cons('\r', Unescape(t[2..]))
      else if t[1] == 'u' && |t| >= 6
              && IsHexDigit(t[2]) && IsHexDigit(t[3]) && IsHexDigit(t[4]) && IsHexDigit(t[5]) then
        var n := HexValue(t[2]) * 4096 + HexValue(t[3]) * 256 + HexValue(t[4]) * 16 + HexValue(t[5]);
        if 0xD800 <= n < 0xE000 then None else Cons(n as char, Unescape(t[6..]))
      else None
    else if t[0] == '"' || (t[0] as int) < 0x20 then None
    else Cons(t[0], Unescape(t[1..]))
  }

  /** Decodes a JSON string literal. */
  function Unquote(q: string): Option<string> {
    if |q| >= 2 && q[0] == '"' && q[|q| - 1] == '"' then Unescape(q[1..|q| - 1]) else None
  }

  /** Characters with a two-character escape. */
  predicate ShortEscaped(c: char) {
    c == '"' || c == '\\' || c == '\U{8}' || c == '\t' || c == '\n' || c == '\U{C}' || c == '\r'
  }

  lemma UnescapeChar(c: char, rest: string)
    ensures Unescape(EscapeChar(c) + rest) == Cons(c, Unescape(rest))
  {
    if ShortEscaped(c) {
      UnescapeShort(c, rest);
    } else if (c as int) < 0x20 {
      UnescapeControl(c, rest);
    } else {
      assert (EscapeChar(c) + rest)[1..] == rest;
    }
  }

  lemma UnescapeShort(c: char, rest: string)
    requires ShortEscaped(c)
    ensures Unescape(EscapeChar(c) + rest) == Cons(c, Unescape(rest))
  {
    var t := EscapeChar(c) + rest;
    assert t[0] == '\\' && t[2..] == rest;
    if c == '"' {
      assert t[1] == '"';
    } else if c == '\\' {
      assert t[1] == '\\';
    } else if c == '\U{8}' {
      assert t[1] == 'b';
    } else if c == '\t' {
      assert t[1] == 't';
    } else if c == '\n' {
      assert t[1] == 'n';
    } else if c == '\U{C}' {
      assert t[1] == 'f';
    } else {
      assert t[1] == 'r';
    }
  }

  lemma HexRoundTrip(d: nat)
    requires d < 16
    ensures IsHexDigit(HexDigit(d)) && HexValue(HexDigit(d)) == d
  {
  }

  lemma UnescapeControl(c: char, rest: string)
    requires !ShortEscaped(c) && (c as int) < 0x20
    ensures Unescape(EscapeChar(c) + rest) == Cons(c, Unescape(rest))
  {
    var hi, lo := c as int / 16, c as int % 16;
    var t := EscapeChar(c) + rest;
    assert EscapeChar(c) == "\\u00" + [HexDigit(hi), HexDigit(lo)];
    assert t[..6] == ['\\', 'u', '0', '0', HexDigit(hi), HexDigit(lo)];
    HexRoundTrip(0);
    HexRoundTrip(hi);
    HexRoundTrip(lo);
    assert HexValue('0') * 4096 + HexValue('0') * 256 + hi * 16 + lo == c as int;
    assert t[6..] == rest;
    UnescapeUnicode(t, c);
  }

  /** A `\uXXXX` escape of a character outside the surrogate range decodes to it. */
  lemma UnescapeUnicode(t: string, c: char)
    requires |t| >= 6 && t[0] == '\\' && t[1] == 'u'
    requires IsHexDigit(t[2]) && IsHexDigit(t[3]) && IsHexDigit(t[4]) && IsHexDigit(t[5])
    requires HexValue(t[2]) * 4096 + HexValue(t[3]) * 256 + HexValue(t[4]) * 16 + HexValue(t[5]) == c as int
    requires !(0xD800 <= c as int < 0xE000)
    ensures Unescape(t) == Cons(c, Unescape(t[6..]))
  {
  }

  lemma {:induction false} UnescapeEscape(s: string)
    ensures Unescape(Escape(s)) == Some(s)
  {
    if s != [] {
      UnescapeEscape(s[1..]);
      UnescapeChar(s[0], Escape(s[1..]));
      assert [s[0]] + s[1..] == s;
    }
  }

  /** Quoting is undone by decoding, so distinct strings quote differently. */
  lemma QuoteRoundTrip(s: string)
    ensures Unquote(Quote(s)) == Some(s)
  {
    var q := Quote(s);
    assert q[1..|q| - 1] == Escape(s);
    UnescapeEscape(s);
  }

  // ---------------------------------------------------------------------
  // Serialisation (SerializeJSONProperty / SerializeJSONObject, gap "  ")

  /** Whether a property with this value appears in JSON output at all. */
  predicate Emitted(v: Value) {
    !v.Undefined? && !v.Fn?
  }

  /** The JSON text of `v` when nested at `indent`; `None` stands for `undefined`. */
  function SerializeValue(v: Value, indent: string): (r: Option<string>)
    ensures r.Some? <==> Emitted(v)
    decreases v, 1
  {
    match v
    case Undefined => None
    case Fn(_) => None
    case Null => Some("null")
    case Bool(b) => Some(if b then "true" else "false")
    case Num(n) => Some(IntToString(n))
    case Str(s) => Some(Quote(s))
    // a RegExp has no enumerable own properties
    case Pattern(_) => Some("{}")
    case Obj(fs) => Some(SerializeObject(fs, indent))
  }

  /** One `"key": value` line per emitted property, in property order. */
  function Members(fs: seq<Field>, indent: string): seq<string>
    decreases fs, 0
  {
    if fs == [] then []
    else
      var rest := Members(fs[1..], indent);
      match SerializeValue(fs[0].val, indent)
      case None => rest
      case Some(text) => [Quote(fs[0].key) + ": " + text] + rest
  }

  function Join(parts: seq<string>, sep: string): string {
    if parts == [] then ""
    else if |parts| == 1 then parts[0]
    else parts[0] + sep + Join(parts[1..], sep)
  }

  /** The text of an object nested at `indent`: `{}`, or one member per line between braces. */
  function SerializeObject(fs: seq<Field>, indent: string): (r: string)
    ensures |r| >= 2 && r[0] == '{' && r[|r| - 1] == '}'
    decreases fs, 1
  {
    var inner := indent + "  ";
    var members := Members(fs, inner);
    if members == [] then "{}"
    else "{\n" + inner + Join(members, ",\n" + inner) + "\n" + indent + "}"
  }

  /** `JSON.stringify(obj, null, 2)` for a top-level plain object. */
  function Stringify(fs: seq<Field>): (r: string)
    ensures |r| >= 2 && r[0] == '{' && r[|r| - 1] == '}'
  {
    SerializeObject(fs, "")
  }

  /** The keys that appear in the JSON text of an object, in order. */
  function EmittedKeys(fs: seq<Field>): seq<string> {
    if fs == [] then []
    else if Emitted(fs[0].val) then [fs[0].key] + EmittedKeys(fs[1..])
    else EmittedKeys(fs[1..])
  }

  // ---------------------------------------------------------------------
  // Lemmas

  /**
   * The member lines of an object's text are in one-to-one, in-order
   * correspondence with its emitted keys: line i starts with key i, quoted.
   */
  lemma {:induction false} MembersFollowKeys(fs: seq<Field>, indent: string)
    ensures |Members(fs, indent)| == |EmittedKeys(fs)|
    ensures forall i :: 0 <= i < |EmittedKeys(fs)| ==>
              var m, p := Members(fs, indent)[i], Quote(EmittedKeys(fs)[i]) + ": ";
              |p| <= |m| && m[..|p|] == p
  {
    if fs != [] {
      MembersFollowKeys(fs[1..], indent);
      var rest, keys := Members(fs[1..], indent), EmittedKeys(fs[1..]);
      match SerializeValue(fs[0].val, indent)
      case None =>
        assert Members(fs, indent) == rest && EmittedKeys(fs) == keys;
      case Some(text) =>
        assert Members(fs, indent) == [Quote(fs[0].key) + ": " + text] + rest;
        assert EmittedKeys(fs) == [fs[0].key] + keys;
        LinesFollowKeys(fs[0].key, text, rest, keys);
    }
  }

  /** The inductive step of `MembersFollowKeys`: one more line, one more key. */
  lemma LinesFollowKeys(key: string, text: string, lines: seq<string>, keys: seq<string>)
    requires |lines| == |keys|
    requires forall i :: 0 <= i < |keys| ==>
               var m, p := lines[i], Quote(keys[i]) + ": ";
               |p| <= |m| && m[..|p|] == p
    ensures var lines', keys' := [Quote(key) + ": " + text] + lines, [key] + keys;
            && |lines'| == |keys'|
            && forall i :: 0 <= i < |keys'| ==>
                 var m, p := lines'[i], Quote(keys'[i]) + ": ";
                 |p| <= |m| && m[..|p|] == p
  {
    var p := Quote(key) + ": ";
    assert (p + text)[..|p|] == p;
  }

  lemma {:induction false} EmittedKeysAppend(a: seq<Field>, b: seq<Field>)
    ensures EmittedKeys(a + b) == EmittedKeys(a) + EmittedKeys(b)
  {
    if a == [] {
      assert a + b == b;
    } else {
      assert (a + b)[1..] == a[1..] + b;
      EmittedKeysAppend(a[1..], b);
    }
  }

  lemma EmittedKeysSingle(f: Field)
    ensures EmittedKeys([f]) == if Emitted(f.val) then [f.key] else []
  {
    assert [f][1..] == [];
  }

  lemma EmittedKeysFour(a: Field, c: seq<Field>, x: seq<Field>, y: seq<Field>)
    ensures EmittedKeys([a] + c + x + y)
         == EmittedKeys([a]) + EmittedKeys(c) + EmittedKeys(x) + EmittedKeys(y)
  {
    EmittedKeysAppend([a], c);
    EmittedKeysAppend([a] + c, x);
    EmittedKeysAppend([a] + c + x, y);
  }

  lemma EmittedKeysOptional(b: bool, f: Field)
    ensures EmittedKeys(if b then [f] else []) == if b && Emitted(f.val) then [f.key] else []
  {
    if b {
      EmittedKeysSingle(f);
    }
  }

  /** An object serialises as `{}` exactly when none of its properties is emitted. */
  lemma ObjectEmptyIff(fs: seq<Field>, indent: string)
    ensures SerializeObject(fs, indent) == "{}" <==> EmittedKeys(fs) == []
  {
    MembersFollowKeys(fs, indent + "  ");
    var s := SerializeObject(fs, indent);
    if EmittedKeys(fs) != [] {
      assert s[1] == '\n';
    }
  }

  /** `fs` without its properties whose value is `undefined`. */
  function DropUndefined(fs: seq<Field>): (r: seq<Field>)
    ensures forall i :: 0 <= i < |r| ==> !r[i].val.Undefined?
  {
    if fs == [] then []
    else if fs[0].val.Undefined? then DropUndefined(fs[1..])
    else [fs[0]] + DropUndefined(fs[1..])
  }

  /** Setting a property to `undefined` is, for the JSON text, the same as removing it. */
  lemma {:induction false} UndefinedIsInvisible(fs: seq<Field>, indent: string)
    ensures SerializeObject(DropUndefined(fs), indent) == SerializeObject(fs, indent)
  {
    MembersDropUndefined(fs, indent + "  ");
  }

  lemma {:induction false} MembersDropUndefined(fs: seq<Field>, indent: string)
    ensures Members(DropUndefined(fs), indent) == Members(fs, indent)
  {
    if fs != [] {
      MembersDropUndefined(fs[1..], indent);
      if !fs[0].val.Undefined? {
        assert ([fs[0]] + DropUndefined(fs[1..]))[1..] == DropUndefined(fs[1..]);
      }
    }
  }
}
