/** JSON as text, without whitespace and with members in key order. */
module JsonText {
  import opened Text
  import opened Values

  function Hex(n: nat): char
    requires n < 16
  {
    if n < 10 then n as char + '0' else (n - 10) as char + 'a'
  }

  /** How a JSON writer escapes one character inside a string (section 7 of
      RFC 8259). */
  function Escape(c: char): (s: string)
    ensures s != [] && s[0] != '"'
  {
    if c == '"' then "\\\""
    else if c == '\\' then "\\\\"
    else if c == '\n' then "\\n"
    else if c == '\r' then "\\r"
    else if c == '\t' then "\\t"
    else if c as int == 8 then "\\b"
    else if c as int == 12 then "\\f"
    else if (c as int) < 32 then "\\u00" + [Hex(c as int / 16), Hex(c as int % 16)]
    else [c]
  }

  // Each writer takes the text that follows it, so that what was written can be
  // read off the front.

  function EscapeThen(s: string, x: string): (r: string)
  {
    if s == [] then "\"" + x else Escape(s[0]) + EscapeThen(s[1..], x)
  }

  function QuoteThen(s: string, x: string): string
  {
    "\"" + EscapeThen(s, x)
  }

  // ---------------------------------------------------------------------
  // Reading a string back
  // ---------------------------------------------------------------------

  function HexDigit(c: char): Option<nat>
  {
    if IsDigit(c) then Some(c as nat - '0' as nat)
    else if 'a' <= c <= 'f' then Some(c as nat - 'a' as nat + 10)
    else if 'A' <= c <= 'F' then Some(c as nat - 'A' as nat + 10)
    else None
  }

  function HexValue(s: string): Option<nat>
  {
    if s == [] then Some(0)
    else
      match (HexValue(s[..|s| - 1]), HexDigit(s[|s| - 1]))
      case (Some(n), Some(d)) => Some(16 * n + d)
      case _ => None
  }

  /** The character a letter after a backslash stands for. */
  function Escaped(c: char): Option<char>
  {
    if c == '"' || c == '\\' || c == '/' then Some(c)
    else if c == 'b' then Some(8 as char)
    else if c == 'f' then Some(12 as char)
    else if c == 'n' then Some('\n')
    else if c == 'r' then Some('\r')
    else if c == 't' then Some('\t')
    else None
  }

  /** `\uXXXX`, without surrogate pairs. */
  function ReadCode(s: string): (r: Option<(char, string)>)
    requires |s| > 1
    ensures r.Some? ==> |r.value.1| < |s|
  {
    if |s| < 6 then None
    else
      match HexValue(s[2..6])
      case Some(n) => if n < 0xD800 then Some((n as char, s[6..])) else None
      case None => None
  }

  /** One character of a string, and the text after it. */
  function ReadChar(s: string): (r: Option<(char, string)>)
    ensures r.Some? ==> |r.value.1| < |s|
  {
    if s == [] || s[0] == '"' || (s[0] as int) < 32 then None
    else if s[0] != '\\' then Some((s[0], s[1..]))
    else if |s| < 2 then None
    else if s[1] == 'u' then ReadCode(s)
    else
      match Escaped(s[1])
      case Some(c) => Some((c, s[2..]))
      case None => None
  }

  /** The characters up to the closing quote, and the text after it. */
  function ReadQuoted(s: string): (r: Option<(string, string)>)
    ensures r.Some? ==> |r.value.1| < |s|
  {
    if s != [] && s[0] == '"' then Some(("", s[1..]))
    else
      match ReadChar(s)
      case None => None
      case Some((c, rest)) =>
        match ReadQuoted(rest)
        case None => None
        case Some((t, after)) => Some(([c] + t, after))
  }

  lemma HexReads(n: nat)
    requires n < 16
    ensures HexDigit(Hex(n)) == Some(n)
  {
  }

  lemma CodeReads(n: nat, x: string)
    requires n < 32
    ensures ReadCode("\\u00" + [Hex(n / 16), Hex(n % 16)] + x) == Some((n as char, x))
  {
    var a, b := Hex(n / 16), Hex(n % 16);
    var s := "\\u00" + [a, b] + x;
    HexReads(n / 16);
    HexReads(n % 16);
    assert s[2..6] == ['0', '0', a, b];
    assert ['0', '0', a, b][..3] == ['0', '0', a] && ['0', '0', a][..2] == ['0', '0'] && ['0', '0'][..1] == ['0'];
    assert HexDigit('0') == Some(0) && HexValue(['0']) == Some(0);
    assert HexValue(['0', '0']) == Some(0);
    assert HexValue(['0', '0', a]) == Some(n / 16);
    assert s[6..] == x;
  }

  lemma CharReads(c: char, x: string)
    ensures ReadChar(Escape(c) + x) == Some((c, x))
  {
    var s := Escape(c) + x;
    assert s[0] == Escape(c)[0] && s[|Escape(c)|..] == x;
    if s[0] == '\\' {
      assert s[1] == Escape(c)[1];
      if s[1] == 'u' {
        CodeReads(c as nat, x);
      }
    }
  }

  /** A written string is read back, up to where it was closed. */
  lemma {:induction false} QuotedReads(s: string, x: string)
    ensures ReadQuoted(EscapeThen(s, x)) == Some((s, x))
  {
    var text := EscapeThen(s, x);
    if s == [] {
      assert text[1..] == x;
    } else {
      CharReads(s[0], EscapeThen(s[1..], x));
      QuotedReads(s[1..], x);
      assert text[0] == Escape(s[0])[0];
      assert s == [s[0]] + s[1..];
    }
  }

  // ---------------------------------------------------------------------
  // Writing a value
  // ---------------------------------------------------------------------

  function Show(v: Json): string
    decreases v, 1, 0
  {
    match v
    case Null => "null"
    case Bool(b) => if b then "true" else "false"
    case Num(num) => NumberText(num)
    case Str(s) => QuoteThen(s, "")
    case Arr(items) => "[" + ShowItems(v, |items|) + "]"
    case Obj(members) => "{" + ShowMembers(v, InOrder(members.Keys)) + "}"
  }

  /** The first `n` items. */
  function ShowItems(v: Json, n: nat): string
    requires v.Arr? && n <= |v.items|
    decreases v, 0, n
  {
    if n == 0 then ""
    else ShowItems(v, n - 1) + (if n == 1 then "" else ",") + Show(v.items[n - 1])
  }

  function ShowMembers(v: Json, keys: seq<string>): string
    requires v.Obj? && forall k | k in keys :: k in v.members
    decreases v, 0, |keys|
  {
    if keys == [] then ""
    else
      var k := keys[|keys| - 1];
      var before := ShowMembers(v, keys[..|keys| - 1]);
      before + (if |keys| == 1 then "" else ",") + QuoteThen(k, ":" + Show(v.members[k]))
  }
}
