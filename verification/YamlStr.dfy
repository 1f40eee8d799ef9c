/**
 The quoting of values in the generated compose file (yamlStr in
 cli/internal/compose/generate.go), against the two readers of that file: a YAML reader of
 one-line double-quoted scalars (sections 5.7 and 7.3.1 of YAML 1.2.2) and the
 variable interpolation of Docker Compose, which reads `$$` as a dollar sign.
 */
module YamlStr {

  import opened Text

  // ---------------------------------------------------------------- the writer

  /** strings.ReplaceAll with a one-character pattern. */
  function ReplaceAll(s: string, c: char, w: string): string {
    if s == "" then "" else (if s[0] == c then w else [s[0]]) + ReplaceAll(s[1..], c, w)
  }

  /** The seven passes, in the code's order. */
  function Passes(s: string): string {
    var escaped := ReplaceAll(s, '\0', "");
    var escaped := ReplaceAll(escaped, '\\', "\\\\");
    var escaped := ReplaceAll(escaped, '"', "\\\"");
    var escaped := ReplaceAll(escaped, '\n', "\\n");
    var escaped := ReplaceAll(escaped, '\r', "\\r");
    var escaped := ReplaceAll(escaped, '\t', "\\t");
    ReplaceAll(escaped, '$', "$$")
  }

  const SPECIAL := "\0$:#{}[]|>&*!%@`\"'\\\n\r\t"

  predicate ContainsAny(s: string, chars: string) {
    exists i :: 0 <= i < |s| && s[i] in chars
  }

  function YamlStr(s: string): string {
    "\"" + (if ContainsAny(s, SPECIAL) then Passes(s) else s) + "\""
  }

  // ---------------------------------------------------------------- the readers

  function Hex(c: char): Option<nat> {
    if '0' <= c <= '9' then Some((c as int) - ('0' as int))
    else if 'a' <= c <= 'f' then Some((c as int) - ('a' as int) + 10)
    else if 'A' <= c <= 'F' then Some((c as int) - ('A' as int) + 10)
    else None
  }

  function HexNumber(s: string): Option<nat> {
    if s == "" then Some(0)
    else
      match (HexNumber(s[..|s| - 1]), Hex(s[|s| - 1]))
      case (Some(n), Some(d)) => Some(16 * n + d)
      case _ => None
  }

  /** The characters that stand for one character after a backslash. */
  function SimpleEscape(c: char): Option<char> {
    match c
    case '0' => Some('\0')         case 'a' => Some('\U{07}')
    case 'b' => Some('\U{08}')     case 't' => Some('\t')
    case '\t' => Some('\t')        case 'n' => Some('\n')
    case 'v' => Some('\U{0B}')     case 'f' => Some('\U{0C}')
    case 'r' => Some('\r')         case 'e' => Some('\U{1B}')
    case ' ' => Some(' ')          case '"' => Some('"')
    case '/' => Some('/')          case '\\' => Some('\\')
    case 'N' => Some('\U{85}')     case '_' => Some('\U{A0}')
    case 'L' => Some('\U{2028}')   case 'P' => Some('\U{2029}')
    case _ => None
  }

  function HexLength(c: char): nat {
    if c == 'x' then 2 else if c == 'u' then 4 else if c == 'U' then 8 else 0
  }

  function Prepend(c: char, s: Option<string>): Option<string> {
    match s case None => None case Some(t) => Some([c] + t)
  }

  /** The content of a double-quoted scalar from after its opening quote: the closing quote must
      be the last character, and only printable characters and tabs may stand for themselves. */
  function Unquote(s: string): Option<string> {
    if s == "" then None
    else if s[0] == '"' then (if |s| == 1 then Some("") else None)
    else if s[0] == '\\' then
      if |s| == 1 then None
      else if SimpleEscape(s[1]).Some? then Prepend(SimpleEscape(s[1]).value, Unquote(s[2..]))
      else
        var n := HexLength(s[1]);
        if n == 0 || |s| < 2 + n then None
        else
          match HexNumber(s[2..2 + n])
          case Some(v) =>
            if v < 0xD800 || 0xE000 <= v < 0x11_0000 then Prepend(v as char, Unquote(s[2 + n..])) else None
          case None => None
    else if s[0] == '\t' || s[0] >= ' ' then Prepend(s[0], Unquote(s[1..]))
    else None
  }

  function ReadYaml(s: string): Option<string> {
    if s == "" || s[0] != '"' then None else Unquote(s[1..])
  }

  /** Compose interpolation of a text without variables: `$$` is a dollar, a lone `$` is refused. */
  function Interpolate(s: string): Option<string> {
    if s == "" then Some("")
    else if s[0] != '$' then Prepend(s[0], Interpolate(s[1..]))
    else if |s| == 1 || s[1] != '$' then None
    else Prepend('$', Interpolate(s[2..]))
  }

  function ReadBack(s: string): Option<string> {
    match ReadYaml(s) case None => None case Some(t) => Interpolate(t)
  }

  // ---------------------------------------------------------------- one escape per character

  function Escape1(c: char): string {
    match c
    case '\0' => ""
    case '\\' => "\\\\"
    case '"' => "\\\""
    case '\n' => "\\n"
    case '\r' => "\\r"
    case '\t' => "\\t"
    case '$' => "$$"
    case _ => [c]
  }

  function Escape(s: string): string {
    if s == "" then "" else Escape1(s[0]) + Escape(s[1..])
  }

  lemma {:induction false} ReplaceAppend(a: string, b: string, c: char, w: string)
    ensures ReplaceAll(a + b, c, w) == ReplaceAll(a, c, w) + ReplaceAll(b, c, w)
  {
    if a == "" {
      assert a + b == b;
    } else {
      assert (a + b)[1..] == a[1..] + b;
      ReplaceAppend(a[1..], b, c, w);
    }
  }

  lemma PassesAppend(a: string, b: string)
    ensures Passes(a + b) == Passes(a) + Passes(b)
  {
    ReplaceAppend(a, b, '\0', "");
    var a1, b1 := ReplaceAll(a, '\0', ""), ReplaceAll(b, '\0', "");
    ReplaceAppend(a1, b1, '\\', "\\\\");
    var a2, b2 := ReplaceAll(a1, '\\', "\\\\"), ReplaceAll(b1, '\\', "\\\\");
    ReplaceAppend(a2, b2, '"', "\\\"");
    var a3, b3 := ReplaceAll(a2, '"', "\\\""), ReplaceAll(b2, '"', "\\\"");
    ReplaceAppend(a3, b3, '\n', "\\n");
    var a4, b4 := ReplaceAll(a3, '\n', "\\n"), ReplaceAll(b3, '\n', "\\n");
    ReplaceAppend(a4, b4, '\r', "\\r");
    var a5, b5 := ReplaceAll(a4, '\r', "\\r"), ReplaceAll(b4, '\r', "\\r");
    ReplaceAppend(a5, b5, '\t', "\\t");
    ReplaceAppend(ReplaceAll(a5, '\t', "\\t"), ReplaceAll(b5, '\t', "\\t"), '$', "$$");
  }

  lemma ReplaceNone(s: string, c: char, w: string)
    requires c !in s
    ensures ReplaceAll(s, c, w) == s
  {
    if s != "" {
      assert s[0] in s;
      assert forall d :: d in s[1..] ==> d in s;
      ReplaceNone(s[1..], c, w);
      assert s == [s[0]] + s[1..];
    }
  }

  lemma ReplaceChar(c: char, w: string)
    ensures ReplaceAll([c], c, w) == w
  {
    assert [c][1..] == "";
    assert w + "" == w;
  }

  lemma PassesOfChar(c: char)
    ensures Passes([c]) == Escape1(c)
  {
    var p1 := ReplaceAll([c], '\0', "");
    if c == '\0' { ReplaceChar(c, ""); } else { ReplaceNone([c], '\0', ""); }
    var p2 := ReplaceAll(p1, '\\', "\\\\");
    if c == '\\' { ReplaceChar(c, "\\\\"); } else { ReplaceNone(p1, '\\', "\\\\"); }
    var p3 := ReplaceAll(p2, '"', "\\\"");
    if c == '"' { ReplaceChar(c, "\\\""); } else { ReplaceNone(p2, '"', "\\\""); }
    var p4 := ReplaceAll(p3, '\n', "\\n");
    if c == '\n' { ReplaceChar(c, "\\n"); } else { ReplaceNone(p3, '\n', "\\n"); }
    var p5 := ReplaceAll(p4, '\r', "\\r");
    if c == '\r' { ReplaceChar(c, "\\r"); } else { ReplaceNone(p4, '\r', "\\r"); }
    var p6 := ReplaceAll(p5, '\t', "\\t");
    if c == '\t' { ReplaceChar(c, "\\t"); } else { ReplaceNone(p5, '\t', "\\t"); }
    if c == '$' { ReplaceChar(c, "$$"); } else { ReplaceNone(p6, '$', "$$"); }
  }

  /** No pass touches what an earlier pass inserted: together they escape each character once. */
  lemma {:induction false} PassesAreOneEscape(s: string)
    ensures Passes(s) == Escape(s)
  {
    if s != "" {
      assert s == [s[0]] + s[1..];
      PassesAppend([s[0]], s[1..]);
      PassesOfChar(s[0]);
      PassesAreOneEscape(s[1..]);
    }
  }

  lemma {:induction false} EscapeOfPlain(s: string)
    requires !ContainsAny(s, SPECIAL)
    ensures Escape(s) == s
  {
    if s != "" {
      EscapeOfOther(s[0]);
      assert forall i :: 0 <= i < |s| - 1 ==> s[1..][i] == s[i + 1];
      EscapeOfPlain(s[1..]);
      assert s == [s[0]] + s[1..];
    }
  }

  lemma EscapeOfOther(c: char)
    requires c !in SPECIAL
    ensures Escape1(c) == [c]
  {
    assert SPECIAL[0] == '\0' && SPECIAL[1] == '$' && SPECIAL[16] == '"' && SPECIAL[18] == '\\';
    assert SPECIAL[19] == '\n' && SPECIAL[20] == '\r' && SPECIAL[21] == '\t';
  }

  /** The unquoted branch is the escape of its string too: one formula covers both branches. */
  lemma YamlStrIsEscape(s: string)
    ensures YamlStr(s) == "\"" + (Escape(s) + "\"")
  {
    if ContainsAny(s, SPECIAL) {
      PassesAreOneEscape(s);
    } else {
      EscapeOfPlain(s);
    }
  }

  // ---------------------------------------------------------------- reading it back

  /** Control characters that the escaper leaves alone and YAML refuses. */
  predicate Refused(c: char) {
    '\0' < c < ' ' && c != '\t' && c != '\n' && c != '\r'
  }

  predicate HasRefused(s: string) {
    exists i :: 0 <= i < |s| && Refused(s[i])
  }

  function WithoutNul(s: string): string {
    if s == "" then "" else (if s[0] == '\0' then "" else [s[0]]) + WithoutNul(s[1..])
  }

  function DoubleDollars(s: string): string {
    if s == "" then "" else (if s[0] == '$' then "$$" else [s[0]]) + DoubleDollars(s[1..])
  }

  lemma {:induction false} UnquoteEscaped(s: string)
    ensures Unquote(Escape(s) + "\"") == if HasRefused(s) then None else Some(DoubleDollars(WithoutNul(s)))
  {
    if s == "" {
      assert Escape(s) + "\"" == "\"";
    } else {
      var c, rest := s[0], Escape(s[1..]) + "\"";
      UnquoteEscaped(s[1..]);
      HasRefusedCons(s);
      assert Escape(s) + "\"" == Escape1(c) + rest;
      UnquoteOne(c, rest);
      if c != '\0' {
        assert WithoutNul(s) == [c] + WithoutNul(s[1..]);
        assert WithoutNul(s)[1..] == WithoutNul(s[1..]);
        var d := DoubleDollars(WithoutNul(s[1..]));
        assert "$$" + d == "$" + ("$" + d);
      } else {
        assert WithoutNul(s) == WithoutNul(s[1..]);
      }
    }
  }

  lemma HasRefusedCons(s: string)
    requires s != ""
    ensures HasRefused(s) <==> Refused(s[0]) || HasRefused(s[1..])
  {
    assert forall i :: 0 <= i < |s| - 1 ==> s[1..][i] == s[i + 1];
    if HasRefused(s) && !Refused(s[0]) {
      var i :| 0 <= i < |s| && Refused(s[i]);
      assert Refused(s[1..][i - 1]);
    }
  }

  lemma UnquoteOne(c: char, rest: string)
    ensures Unquote(Escape1(c) + rest) ==
              if Refused(c) then None
              else if c == '\0' then Unquote(rest)
              else if c == '$' then Prepend('$', Prepend('$', Unquote(rest)))
              else Prepend(c, Unquote(rest))
  {
    if c == '\0' {
      assert Escape1(c) + rest == rest;
    } else if c == '$' {
      assert "$$" + rest == "$" + ("$" + rest);
      UnquotePlain('$', "$" + rest);
      UnquotePlain('$', rest);
    } else if c == '\\' {
      UnquoteSlash('\\', rest);
    } else if c == '"' {
      UnquoteSlash('"', rest);
    } else if c == '\n' {
      UnquoteSlash('n', rest);
    } else if c == '\r' {
      UnquoteSlash('r', rest);
    } else if c == '\t' {
      UnquoteSlash('t', rest);
    } else {
      UnquotePlain(c, rest);
    }
  }

  lemma UnquotePlain(c: char, rest: string)
    requires c != '"' && c != '\\'
    ensures Unquote([c] + rest) == if c == '\t' || c >= ' ' then Prepend(c, Unquote(rest)) else None
  {
    assert ([c] + rest)[1..] == rest;
  }

  lemma UnquoteSlash(e: char, rest: string)
    requires SimpleEscape(e).Some?
    ensures Unquote(['\\', e] + rest) == Prepend(SimpleEscape(e).value, Unquote(rest))
  {
    assert (['\\', e] + rest)[2..] == rest;
  }

  lemma {:induction false} InterpolateDoubled(s: string)
    ensures Interpolate(DoubleDollars(s)) == Some(s)
  {
    if s != "" {
      InterpolateDoubled(s[1..]);
      var t := DoubleDollars(s);
      if s[0] == '$' {
        assert t[2..] == DoubleDollars(s[1..]) && t[1] == '$';
      } else {
        assert t[1..] == DoubleDollars(s[1..]);
      }
      assert s == [s[0]] + s[1..];
    }
  }

  /** What the two readers make of a quoted value, for every string: the string without its NUL
      characters, unless it holds a control character that YAML refuses. */
  lemma ReadBackOfYamlStr(s: string)
    ensures ReadBack(YamlStr(s)) == if HasRefused(s) then None else Some(WithoutNul(s))
  {
    YamlStrIsEscape(s);
    var t := YamlStr(s);
    assert t[1..] == Escape(s) + "\"";
    UnquoteEscaped(s);
    InterpolateDoubled(WithoutNul(s));
  }

  lemma {:induction false} WithoutNulIsSame(s: string)
    ensures WithoutNul(s) == s <==> '\0' !in s
    ensures |WithoutNul(s)| <= |s|
  {
    if s != "" {
      WithoutNulIsSame(s[1..]);
      assert s == [s[0]] + s[1..];
      if s[0] != '\0' {
        assert WithoutNul(s)[1..] == WithoutNul(s[1..]);
      }
    }
  }

  /** The round trip holds exactly for the strings whose control characters are all tabs, line
      feeds or carriage returns. */
  lemma RoundTrip(s: string)
    ensures ReadBack(YamlStr(s)) == Some(s) <==>
              forall i :: 0 <= i < |s| ==> s[i] >= ' ' || s[i] == '\t' || s[i] == '\n' || s[i] == '\r'
  {
    ReadBackOfYamlStr(s);
    WithoutNulIsSame(s);
    if '\0' in s {
      var i :| 0 <= i < |s| && s[i] == '\0';
    }
  }

  /** A value it fails on: one escape character. */
  lemma RoundTripFails()
    ensures ReadBack(YamlStr("\U{1B}")) == None
  {
    ReadBackOfYamlStr("\U{1B}");
    assert Refused("\U{1B}"[0]);
  }
}
