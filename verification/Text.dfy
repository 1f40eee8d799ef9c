/** Strings as the Go standard library sees them: lines, blanks, prefixes and substrings. */
module Text {

  datatype Option<+T> = None | Some(value: T)

  predicate HasPrefix(s: string, p: string) {
    |p| <= |s| && s[..|p|] == p
  }

  /** strings.Contains. */
  predicate Contains(s: string, sub: string) {
    HasPrefix(s, sub) || (s != "" && Contains(s[1..], sub))
  }

  /** unicode.IsSpace, which strings.TrimSpace uses. */
  predicate IsSpace(c: char) {
    || '\t' <= c <= '\r' || c == ' ' || c == '\U{85}' || c == '\U{A0}' || c == '\U{1680}'
    || '\U{2000}' <= c <= '\U{200A}' || c == '\U{2028}' || c == '\U{2029}' || c == '\U{202F}'
    || c == '\U{205F}' || c == '\U{3000}'
  }

  function TrimLeft(s: string): string {
    if s != "" && IsSpace(s[0]) then TrimLeft(s[1..]) else s
  }

  function TrimRight(s: string): string {
    if s != "" && IsSpace(s[|s| - 1]) then TrimRight(s[..|s| - 1]) else s
  }

  function TrimSpace(s: string): string {
    TrimRight(TrimLeft(s))
  }

  // ---------------------------------------------------------------- lines

  predicate NoNewline(s: string) {
    forall i :: 0 <= i < |s| ==> s[i] != '\n'
  }

  lemma NoNewlineAppend(a: string, b: string)
    ensures NoNewline(a + b) <==> NoNewline(a) && NoNewline(b)
  {
    assert forall i :: 0 <= i < |a| ==> a[i] == (a + b)[i];
    assert forall i :: 0 <= i < |b| ==> b[i] == (a + b)[|a| + i];
  }

  /** strings.Split(s, "\n"): always at least one line, none of them holding a newline. */
  function Lines(s: string): (ls: seq<string>)
    ensures |ls| >= 1
    ensures forall i :: 0 <= i < |ls| ==> NoNewline(ls[i])
  {
    if s == "" then [""]
    else if s[0] == '\n' then [""] + Lines(s[1..])
    else
      var rest := Lines(s[1..]);
      [[s[0]] + rest[0]] + rest[1..]
  }

  /** strings.Join(ls, "\n"). */
  function Unlines(ls: seq<string>): string {
    if |ls| == 0 then ""
    else if |ls| == 1 then ls[0]
    else ls[0] + "\n" + Unlines(ls[1..])
  }

  lemma {:induction false} UnlinesOfLines(s: string)
    ensures Unlines(Lines(s)) == s
  {
    if s == "" {
    } else if s[0] == '\n' {
      UnlinesOfLines(s[1..]);
      assert Lines(s)[1..] == Lines(s[1..]);
    } else {
      UnlinesOfLines(s[1..]);
      var rest := Lines(s[1..]);
      assert Lines(s)[1..] == rest[1..];
      assert s == [s[0]] + s[1..];
    }
  }

  /** A newline-free line in front of a text becomes its own line. */
  lemma {:induction false} LinesCons(l: string, s: string)
    requires NoNewline(l)
    ensures Lines(l + "\n" + s) == [l] + Lines(s)
  {
    if l == "" {
      assert l + "\n" + s == "\n" + s;
    } else {
      LinesCons(l[1..], s);
      assert (l + "\n" + s)[1..] == l[1..] + "\n" + s;
      assert l == [l[0]] + l[1..];
    }
  }

  lemma {:induction false} LinesSingle(l: string)
    requires NoNewline(l)
    ensures Lines(l) == [l]
  {
    if l != "" {
      LinesSingle(l[1..]);
      assert l == [l[0]] + l[1..];
    }
  }

  lemma {:induction false} LinesOfUnlines(ls: seq<string>)
    requires |ls| >= 1
    requires forall i :: 0 <= i < |ls| ==> NoNewline(ls[i])
    ensures Lines(Unlines(ls)) == ls
  {
    if |ls| == 1 {
      LinesSingle(ls[0]);
    } else {
      LinesOfUnlines(ls[1..]);
      LinesCons(ls[0], Unlines(ls[1..]));
    }
  }

  lemma {:induction false} UnlinesAppend(a: seq<string>, b: seq<string>)
    requires |a| >= 1 && |b| >= 1
    ensures Unlines(a + b) == Unlines(a) + "\n" + Unlines(b)
  {
    if |a| == 1 {
      assert (a + b)[1..] == b;
    } else {
      UnlinesAppend(a[1..], b);
      assert (a + b)[1..] == a[1..] + b;
    }
  }

  /** Splitting a text at a newline splits its lines. */
  lemma LinesAppend(s: string, t: string)
    ensures Lines(s + "\n" + t) == Lines(s) + Lines(t)
  {
    UnlinesOfLines(s);
    UnlinesOfLines(t);
    UnlinesAppend(Lines(s), Lines(t));
    LinesOfUnlines(Lines(s) + Lines(t));
  }

  /** Cutting a text short keeps its first lines and cuts one of them short. */
  lemma {:induction false} LinesOfPrefix(s: string, n: nat, k: nat)
    requires n <= |s| && k < |Lines(s[..n])|
    ensures k < |Lines(s)| && HasPrefix(Lines(s)[k], Lines(s[..n])[k])
  {
    if n != 0 {
      assert s[..n][1..] == s[1..][..n - 1];
      if s[0] == '\n' {
        if k > 0 {
          LinesOfPrefix(s[1..], n - 1, k - 1);
        }
      } else {
        LinesOfPrefix(s[1..], n - 1, k);
      }
    }
  }

  // ---------------------------------------------------------------- substrings

  lemma {:induction false} ContainsLeft(a: string, b: string, sub: string)
    requires Contains(a, sub)
    ensures Contains(a + b, sub)
  {
    if HasPrefix(a, sub) {
      assert (a + b)[..|sub|] == a[..|sub|];
    } else {
      ContainsLeft(a[1..], b, sub);
      assert (a + b)[1..] == a[1..] + b;
    }
  }

  lemma {:induction false} ContainsRight(a: string, b: string, sub: string)
    requires Contains(b, sub)
    ensures Contains(a + b, sub)
  {
    if a == "" {
      assert a + b == b;
    } else {
      ContainsRight(a[1..], b, sub);
      assert (a + b)[1..] == a[1..] + b;
    }
  }

  lemma {:induction false} SubstringOfUnlines(ls: seq<string>, k: nat, sub: string)
    requires k < |ls| && Contains(ls[k], sub)
    ensures Contains(Unlines(ls), sub)
  {
    if |ls| > 1 {
      if k == 0 {
        ContainsLeft(ls[0], "\n" + Unlines(ls[1..]), sub);
        assert Unlines(ls) == ls[0] + ("\n" + Unlines(ls[1..]));
      } else {
        SubstringOfUnlines(ls[1..], k - 1, sub);
        ContainsRight(ls[0] + "\n", Unlines(ls[1..]), sub);
      }
    }
  }

  /** A text contains whatever one of its lines contains. */
  lemma {:induction false} SubstringOfLine(s: string, k: nat, sub: string)
    requires k < |Lines(s)| && Contains(Lines(s)[k], sub)
    ensures Contains(s, sub)
  {
    UnlinesOfLines(s);
    SubstringOfUnlines(Lines(s), k, sub);
  }

  /** Trimming a string gives one of its substrings. */
  lemma {:induction false} ContainsTrimmed(s: string)
    ensures Contains(s, TrimSpace(s))
  {
    TrimRightIsPrefix(TrimLeft(s));
    TrimLeftIsSuffix(s, TrimSpace(s));
  }

  lemma {:induction false} TrimRightIsPrefix(s: string)
    ensures HasPrefix(s, TrimRight(s))
  {
    if s != "" && IsSpace(s[|s| - 1]) {
      TrimRightIsPrefix(s[..|s| - 1]);
    }
  }

  lemma {:induction false} TrimLeftIsSuffix(s: string, sub: string)
    requires HasPrefix(TrimLeft(s), sub)
    ensures Contains(s, sub)
  {
    if s != "" && IsSpace(s[0]) {
      TrimLeftIsSuffix(s[1..], sub);
    }
  }
}
