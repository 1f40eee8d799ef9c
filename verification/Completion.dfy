/**
 The marker block that shell completion adds to a profile and takes out again
 (cli/internal/completion/install.go).
 */
module Completion {

  import opened Text

  const MARKER := "# synthorg shell completion"
  const FPATH := "fpath=(~/.zsh/completion $fpath)"
  const MAX_SNIPPET_LINES := 5

  datatype Shell = Bash | Zsh | PowerShell

  const BASH_LINE := "eval \"$(synthorg completion bash)\""
  const ZSH_LINE := "autoload -Uz compinit && compinit"
  const POWERSHELL_LINE := "synthorg completion powershell" + " | Out-String | Invoke-Expression"

  /** The lines a shell's snippet adds, with the empty line after its last newline. */
  function SnippetLines(shell: Shell): seq<string> {
    match shell
    case Bash => [MARKER, BASH_LINE, ""]
    case Zsh => [MARKER, FPATH, ZSH_LINE, ""]
    case PowerShell => [MARKER, POWERSHELL_LINE, ""]
  }

  function Snippet(shell: Shell): string {
    "\n" + Unlines(SnippetLines(shell))
  }

  /** The text whose presence means "already installed": zsh looks for its fpath line. */
  function Probe(shell: Shell): string {
    if shell == Zsh then FPATH else MARKER
  }

  function Installed(shell: Shell, text: string): string {
    if Contains(text, Probe(shell)) then text else text + Snippet(shell)
  }

  // ---------------------------------------------------------------- the block

  /** All that removal looks at in a line. */
  datatype Kind = Marker | Blank | Plain

  function KindOf(line: string): Kind {
    var t := TrimSpace(line);
    if t == MARKER then Marker else if t == "" then Blank else Plain
  }

  function Kinds(ls: seq<string>): (ks: seq<Kind>)
    ensures |ks| == |ls| && forall i :: 0 <= i < |ls| ==> ks[i] == KindOf(ls[i])
  {
    seq(|ls|, i requires 0 <= i < |ls| => KindOf(ls[i]))
  }

  /** The first marker line, or the number of lines. */
  function First(ks: seq<Kind>): (i: nat)
    ensures i <= |ks| && (i < |ks| ==> ks[i] == Marker) && forall j :: 0 <= j < i ==> ks[j] != Marker
  {
    if ks == [] || ks[0] == Marker then 0 else 1 + First(ks[1..])
  }

  /** How many of the lines after a marker go with it, when `n` have gone already: non-empty lines
      up to the cap, and the empty line that ends them. */
  function BodyLength(ks: seq<Kind>, n: nat): (k: nat)
    requires n <= MAX_SNIPPET_LINES
    ensures k <= |ks| && k + n <= MAX_SNIPPET_LINES + 1
  {
    if ks == [] then 0
    else if ks[0] == Blank then 1
    else if n == MAX_SNIPPET_LINES then 0
    else 1 + BodyLength(ks[1..], n + 1)
  }

  /** The number of lines that removal takes out, from the first marker on. */
  function BlockLength(ks: seq<Kind>): (k: nat)
    ensures k <= MAX_SNIPPET_LINES + 2 && First(ks) + k <= |ks|
    ensures k == 0 <==> First(ks) == |ks|
  {
    var i := First(ks);
    if i == |ks| then 0 else 1 + BodyLength(ks[i + 1..], 0)
  }

  /** On any text, removal deletes one contiguous run of at most seven lines, starting at the first
      marker line, and keeps all other lines in order. */
  function CutBlock(ls: seq<string>, ks: seq<Kind>): seq<string>
    requires |ls| == |ks|
  {
    ls[..First(ks)] + ls[First(ks) + BlockLength(ks)..]
  }

  function WithoutBlock(ls: seq<string>): seq<string> {
    CutBlock(ls, Kinds(ls))
  }

  function Removed(text: string): string {
    if Contains(text, MARKER) then Unlines(WithoutBlock(Lines(text))) else text
  }

  // ---------------------------------------------------------------- the profile file

  /** A user's profile, and for zsh the file of completion functions. */
  class Profile {
    var text: Option<string>      // None when the file does not exist
    var functions: bool           // whether the completion file exists

    constructor (text: Option<string>, functions: bool)
      ensures this.text == text && this.functions == functions
    {
      this.text, this.functions := text, functions;
    }

    function Content(): string
      reads this
    {
      if text.Some? then text.value else ""
    }

    /** installBash, installZsh and installPowerShell.  For zsh, "already installed" is about the completion
        file, which is written in any case; for the others, about the profile.  Any call may fail unless
        `calm`; a failed append may have added part of the snippet. */
    method Install(shell: Shell, calm: bool) returns (failed: bool, already: bool)
      modifies this
      ensures calm ==> !failed
      ensures !failed ==> Content() == Installed(shell, old(Content()))
      ensures failed ==> exists k: nat :: k <= |Snippet(shell)| && Content() == old(Content()) + Snippet(shell)[..k]
      ensures Contains(old(Content()), Probe(shell)) ==> text == old(text)
      ensures shell == Zsh ==> already == old(functions) && (!failed ==> functions)
      ensures shell != Zsh ==> functions == old(functions) && (already ==> !failed)
      ensures shell != Zsh && !failed ==> already == Contains(old(Content()), Probe(shell))
    {
      ghost var was := Content();
      assert was + Snippet(shell)[..0] == was;
      already := shell == Zsh && functions;
      var unusable: bool := *;
      failed := *;              // the home directory, the completion file
      failed := failed && !calm;
      if shell == Zsh {
        functions := functions || !failed || unusable;
      }
      if !failed {
        failed := unusable && !calm;     // reading the profile
      }
      if failed {
        return;
      }
      if Contains(Content(), Probe(shell)) {
        already := already || shell != Zsh;
        return;
      }
      var snippet := Snippet(shell);
      failed := *;              // opening, writing or closing it
      failed := failed && !calm;
      var k :| 0 <= k <= |snippet| && (!failed ==> k == |snippet|);
      assert snippet[..|snippet|] == snippet;
      text := Some(Content() + snippet[..k]);
    }

    /** removeMarkerBlock.  A failed write may have left part of the new content. */
    method RemoveMarkerBlock(calm: bool) returns (failed: bool)
      modifies this`text
      ensures calm ==> !failed
      ensures text.Some? == old(text).Some?
      ensures !failed ==> Content() == Removed(old(Content()))
      ensures failed && text != old(text) ==>
                Contains(old(Content()), MARKER)
                && exists k: nat :: k <= |Removed(old(Content()))| && Content() == Removed(old(Content()))[..k]
    {
      if text.None? {
        assert !Contains("", MARKER);
        return false;
      }
      failed := *;              // stat or read
      failed := failed && !calm;
      if failed {
        return;
      }
      var content := text.value;
      if !Contains(content, MARKER) {
        return;
      }
      var lines := Lines(content);
      var result := RemoveBlock(lines, Kinds(lines));
      var cleaned := Unlines(result);
      failed := *;              // the rewrite
      failed := failed && !calm;
      var k :| 0 <= k <= |cleaned| && (!failed ==> k == |cleaned|);
      assert cleaned[..|cleaned|] == cleaned;
      text := Some(cleaned[..k]);
      assert Removed(old(Content())) == cleaned && Content() == Removed(old(Content()))[..k];
    }
  }

  /** Where a body ends that goes on at line `k`. */
  ghost function BodyEnd(ks: seq<Kind>, k: nat, n: nat): nat
    requires k <= |ks| && n <= MAX_SNIPPET_LINES
  {
    k + BodyLength(ks[k..], n)
  }

  lemma BodyEndStep(ks: seq<Kind>, k: nat, n: nat)
    requires k < |ks| && n <= MAX_SNIPPET_LINES
    ensures BodyEnd(ks, k, n) == if ks[k] == Blank then k + 1
                                 else if n == MAX_SNIPPET_LINES then k
                                 else BodyEnd(ks, k + 1, n + 1)
    ensures First(ks) == k ==> First(ks) + BlockLength(ks) == BodyEnd(ks, k + 1, 0)
    ensures k <= First(ks) && ks[k] == Marker ==> First(ks) == k
  {
    assert ks[k..][1..] == ks[k + 1..];
  }

  /** The loop of removeMarkerBlock, with what it asks about each line. */
  method RemoveBlock(lines: seq<string>, kinds: seq<Kind>) returns (result: seq<string>)
    requires |lines| == |kinds|
    ensures result == CutBlock(lines, kinds)
  {
    result := [];
    var inBlock, found, blockLines := false, false, 0;
    ghost var at, end := First(kinds), First(kinds) + BlockLength(kinds);
    for k := 0 to |lines|
      invariant 0 <= blockLines <= MAX_SNIPPET_LINES
      invariant !found ==> !inBlock && result == lines[..k] && k <= at
      invariant found ==> at < k
      invariant found && inBlock ==> result == lines[..at] && end == BodyEnd(kinds, k, blockLines)
      invariant found && !inBlock ==> end <= k && result == lines[..at] + lines[end..k]
    {
      BodyEndStep(kinds, k, blockLines);
      if !found && kinds[k] == Marker {
        inBlock := true;
        found := true;
        blockLines := 0;
        continue;
      }
      if inBlock {
        if kinds[k] != Blank && blockLines < MAX_SNIPPET_LINES {
          blockLines := blockLines + 1;
          continue;
        }
        inBlock := false;
        if kinds[k] == Blank {
          assert end == k + 1 && lines[end..k + 1] == [];
          continue;
        }
      }
      assert found ==> !inBlock && end <= k && result == lines[..at] + lines[end..k];
      assert found ==> lines[end..k] + [lines[k]] == lines[end..k + 1];
      assert !found ==> lines[..k] + [lines[k]] == lines[..k + 1];
      result := result + [lines[k]];
    }
    if found && !inBlock {
      assert lines[end..|lines|] == lines[end..];
    }
  }

  // ---------------------------------------------------------------- what a snippet looks like

  lemma TrimOfTight(s: string)
    requires s != "" && !IsSpace(s[0]) && !IsSpace(s[|s| - 1])
    ensures TrimSpace(s) == s
  {
  }

  lemma BashLine()
    ensures KindOf(BASH_LINE) == Plain && NoNewline(BASH_LINE)
  {
    TrimOfTight(BASH_LINE);
    assert BASH_LINE[0] == 'e' && MARKER[0] == '#';
  }

  lemma FpathLine()
    ensures KindOf(FPATH) == Plain && NoNewline(FPATH)
  {
    TrimOfTight(FPATH);
    assert FPATH[0] == 'f' && MARKER[0] == '#';
  }

  lemma ZshLine()
    ensures KindOf(ZSH_LINE) == Plain && NoNewline(ZSH_LINE)
  {
    TrimOfTight(ZSH_LINE);
    assert ZSH_LINE[0] == 'a' && MARKER[0] == '#';
  }

  lemma PowerShellLine()
    ensures KindOf(POWERSHELL_LINE) == Plain && NoNewline(POWERSHELL_LINE)
  {
    var a, b := "synthorg completion powershell", " | Out-String | Invoke-Expression";
    NoNewlineAppend(a, b);
    assert (a + b)[0] == a[0] == 's' && (a + b)[|a| + |b| - 1] == b[|b| - 1] == 'n';
    TrimOfTight(a + b);
    assert MARKER[0] == '#';
  }

  lemma MarkerLine()
    ensures KindOf(MARKER) == Marker && NoNewline(MARKER) && KindOf("") == Blank
  {
    TrimOfTight(MARKER);
  }

  lemma ShortSnippet(marker: string, line: string)
    requires KindOf(marker) == Marker && KindOf(line) == Plain && NoNewline(marker) && NoNewline(line)
    ensures Kinds([marker, line, ""]) == [Marker, Plain, Blank]
    ensures forall i :: 0 <= i < 3 ==> NoNewline([marker, line, ""][i])
  {
    var ls := [marker, line, ""];
    assert Kinds(ls)[0] == Marker && Kinds(ls)[1] == Plain && Kinds(ls)[2] == Blank by { assert TrimSpace("") == ""; }
    assert ls[0] == marker && ls[1] == line && ls[2] == "";
  }

  lemma LongSnippet(marker: string, line: string, last: string)
    requires KindOf(marker) == Marker && KindOf(line) == Plain && KindOf(last) == Plain
    requires NoNewline(marker) && NoNewline(line) && NoNewline(last)
    ensures Kinds([marker, line, last, ""]) == [Marker, Plain, Plain, Blank]
    ensures forall i :: 0 <= i < 4 ==> NoNewline([marker, line, last, ""][i])
  {
    var ls := [marker, line, last, ""];
    assert Kinds(ls)[0] == Marker && Kinds(ls)[1] == Plain && Kinds(ls)[2] == Plain
           && Kinds(ls)[3] == Blank by { assert TrimSpace("") == ""; }
    assert ls[0] == marker && ls[1] == line && ls[2] == last && ls[3] == "";
  }

  lemma SnippetKinds(shell: Shell)
    ensures Kinds(SnippetLines(shell)) == if shell == Zsh then [Marker, Plain, Plain, Blank] else [Marker, Plain, Blank]
    ensures forall i :: 0 <= i < |SnippetLines(shell)| ==> NoNewline(SnippetLines(shell)[i])
  {
    MarkerLine();
    match shell
    case Bash =>
      BashLine();
      ShortSnippet(MARKER, BASH_LINE);
    case Zsh =>
      FpathLine();
      ZshLine();
      LongSnippet(MARKER, FPATH, ZSH_LINE);
    case PowerShell =>
      PowerShellLine();
      ShortSnippet(MARKER, POWERSHELL_LINE);
  }

  /** The lines of a profile after a fresh install. */
  lemma InstalledLines(shell: Shell, text: string)
    ensures Lines(text + Snippet(shell)) == Lines(text) + SnippetLines(shell)
  {
    SnippetKinds(shell);
    JoinedLines(text, SnippetLines(shell));
  }

  lemma JoinedLines(text: string, add: seq<string>)
    requires add != [] && forall i :: 0 <= i < |add| ==> NoNewline(add[i])
    ensures Lines(text + ("\n" + Unlines(add))) == Lines(text) + add
  {
    LinesOfUnlines(add);
    LinesAppend(text, Unlines(add));
    assert text + ("\n" + Unlines(add)) == text + "\n" + Unlines(add);
  }

  lemma ContainsSnippet(shell: Shell, text: string)
    ensures Contains(text + Snippet(shell), MARKER) && Contains(text + Snippet(shell), Probe(shell))
  {
    var ls := Lines(text);
    InstalledLines(shell, text);
    var all := Lines(text + Snippet(shell));
    assert all[|ls|] == MARKER && Contains(MARKER, MARKER);
    SubstringOfLine(text + Snippet(shell), |ls|, MARKER);
    if shell == Zsh {
      assert all[|ls| + 1] == FPATH && Contains(FPATH, FPATH);
      SubstringOfLine(text + Snippet(shell), |ls| + 1, FPATH);
    }
  }

  /** Installing leaves the probe text in the profile, by adding the snippet's lines at the end if it
      was not there. */
  lemma InstallAppends(shell: Shell, text: string)
    ensures Contains(Installed(shell, text), Probe(shell))
    ensures Lines(Installed(shell, text)) ==
              Lines(text) + if Contains(text, Probe(shell)) then [] else SnippetLines(shell)
  {
    ContainsSnippet(shell, text);
    InstalledLines(shell, text);
    assert Lines(text) + [] == Lines(text);
  }

  /** The line that makes completion work in a shell. */
  function WorkingLine(shell: Shell): string {
    match shell
    case Bash => BASH_LINE
    case Zsh => FPATH
    case PowerShell => POWERSHELL_LINE
  }

  /** After an install the working line is in the profile, unless the marker stood there without it and hid that:
      for zsh the line itself is looked for. */
  lemma InstalledWorks(shell: Shell, text: string)
    ensures Contains(Installed(shell, text), WorkingLine(shell)) <==>
            shell == Zsh || !Contains(text, MARKER) || Contains(text, WorkingLine(shell))
  {
    ContainsSnippet(shell, text);
    if shell != Zsh && !Contains(text, MARKER) {
      InstalledLines(shell, text);
      var ls := Lines(Installed(shell, text));
      var at := |Lines(text)| + 1;
      assert ls[at] == SnippetLines(shell)[1] == WorkingLine(shell);
      LineIsContained(Installed(shell, text), WorkingLine(shell));
    }
  }

  /** Installing twice is installing once. */
  lemma InstallTwice(shell: Shell, text: string)
    ensures Installed(shell, Installed(shell, text)) == Installed(shell, text)
  {
    ContainsSnippet(shell, text);
  }

  // ---------------------------------------------------------------- where blocks end

  lemma KindsAppend(a: seq<string>, b: seq<string>)
    ensures Kinds(a + b) == Kinds(a) + Kinds(b)
  {
  }

  lemma FirstOfAppend(a: seq<Kind>, b: seq<Kind>)
    ensures First(a + b) == if First(a) < |a| then First(a) else |a| + First(b)
  {
    var i, f, g := First(a + b), First(a), First(b);
    assert f < |a| ==> (a + b)[f] == Marker;
    assert forall j :: 0 <= j < |a| ==> (a + b)[j] == a[j];
    assert forall j :: 0 <= j < |b| ==> (a + b)[|a| + j] == b[j];
    assert g < |b| ==> (a + b)[|a| + g] == Marker;
    assert |a| <= i < |a| + |b| ==> b[i - |a|] == Marker;
  }

  lemma BodyLengthStep(ks: seq<Kind>, n: nat)
    requires n < MAX_SNIPPET_LINES && ks != []
    ensures BodyLength(ks, n) == if ks[0] == Blank then 1 else 1 + BodyLength(ks[1..], n + 1)
  {
  }

  /** The block of a snippet's own marker is the snippet and its closing empty line. */
  lemma SnippetBlock(ks: seq<Kind>)
    requires ks == [Marker, Plain, Blank] || ks == [Marker, Plain, Plain, Blank]
    ensures First(ks) == 0 && BlockLength(ks) == |ks|
  {
    BodyLengthStep(ks[1..], 0);
    assert ks[1..][1..] == ks[2..];
    BodyLengthStep(ks[2..], 1);
    if |ks| == 4 {
      assert ks[2..][1..] == ks[3..];
      BodyLengthStep(ks[3..], 2);
    }
  }

  /** A profile without marker line comes back byte for byte. */
  lemma CleanRoundTrip(shell: Shell, text: string)
    requires First(Kinds(Lines(text))) == |Lines(text)|
    ensures Removed(Installed(shell, text)) == text
  {
    var ls := Lines(text);
    UnlinesOfLines(text);
    if Contains(text, Probe(shell)) {
      assert WithoutBlock(ls) == ls;
    } else {
      InstalledLines(shell, text);
      ContainsSnippet(shell, text);
      CleanBlock(ls, SnippetLines(shell), shell);
    }
  }

  lemma CleanBlock(ls: seq<string>, add: seq<string>, shell: Shell)
    requires add == SnippetLines(shell) && First(Kinds(ls)) == |ls|
    ensures WithoutBlock(ls + add) == ls
  {
    SnippetKinds(shell);
    SnippetBlock(Kinds(add));
    KindsAppend(ls, add);
    CleanCut(ls, add, Kinds(ls), Kinds(add));
  }

  lemma CleanCut(ls: seq<string>, add: seq<string>, ks: seq<Kind>, ad: seq<Kind>)
    requires |ls| == |ks| && |add| == |ad| && First(ks) == |ks|
    requires First(ad) == 0 && BlockLength(ad) == |ad| > 0
    ensures CutBlock(ls + add, ks + ad) == ls
  {
    FirstOfAppend(ks, ad);
    assert (ks + ad)[|ks| + 1..] == ad[1..];
  }

  // ---------------------------------------------------------------- profiles with a marker

  /** Dropping lines changes a text that has a marker line. */
  lemma FewerLines(text: string, rest: seq<string>)
    requires First(Kinds(Lines(text))) < |Lines(text)| && |rest| < |Lines(text)|
    requires forall i :: 0 <= i < |rest| ==> NoNewline(rest[i])
    ensures Unlines(rest) != text
  {
    if rest == [] {
      MarkerLine();
      assert Lines("") == [""];
    } else {
      LinesOfUnlines(rest);
    }
  }

  /** After a marker near the end of a profile, the zsh snippet makes that marker's block longer
      or shorter than the snippet. */
  lemma LateMarkerBlock(ks: seq<Kind>, i: nat)
    requires |ks| - 2 <= i < |ks|
    ensures BodyLength((ks + [Marker, Plain, Plain, Blank])[i + 1..], 0) != 3
  {
    var all := ks + [Marker, Plain, Plain, Blank];
    if i == |ks| - 1 {
      assert all[i + 1..] == [Marker, Plain, Plain, Blank];
      ZshBody(0);
    } else {
      assert all[i + 1..][1..] == [Marker, Plain, Plain, Blank];
      BodyLengthStep(all[i + 1..], 0);
      ZshBody(1);
    }
  }

  lemma ZshBody(n: nat)
    requires n <= 1
    ensures BodyLength([Marker, Plain, Plain, Blank], n) == 4
  {
    var add := [Marker, Plain, Plain, Blank];
    assert add[1..] == [Plain, Plain, Blank] && [Plain, Plain, Blank][1..] == [Plain, Blank]
           && [Plain, Blank][1..] == [Blank];
    BodyLengthStep(add, n);
    BodyLengthStep([Plain, Plain, Blank], n + 1);
    BodyLengthStep([Plain, Blank], n + 2);
    BodyLengthStep([Blank], n + 3);
  }

  lemma RestHasSnippet(ls: seq<string>, ks: seq<Kind>, add: seq<string>)
    requires |ls| == |ks| && First(ks) < |ks| && |add| == 4 && add[1] !in ls
    ensures CutBlock(ls + add, ks + [Marker, Plain, Plain, Blank]) != ls
  {
    var all, i := ks + [Marker, Plain, Plain, Blank], First(ks);
    FirstOfAppend(ks, [Marker, Plain, Plain, Blank]);
    var rest := CutBlock(ls + add, all);
    if |rest| == |ls| {
      assert BlockLength(all) == 4;
      if i >= |ls| - 2 {
        LateMarkerBlock(ks, i);
      } else {
        assert rest[|ls| - 3] == (ls + add)[|ls| + 1] == add[1];
      }
    }
  }

  lemma LineIsContained(text: string, line: string)
    requires line in Lines(text)
    ensures Contains(text, line)
  {
    var k :| 0 <= k < |Lines(text)| && Lines(text)[k] == line;
    assert Contains(line, line);
    SubstringOfLine(text, k, line);
  }

  lemma ZshRest(text: string)
    requires First(Kinds(Lines(text))) < |Lines(text)| && !Contains(text, FPATH)
    ensures WithoutBlock(Lines(text) + SnippetLines(Zsh)) != Lines(text)
  {
    var ls := Lines(text);
    SnippetKinds(Zsh);
    KindsAppend(ls, SnippetLines(Zsh));
    if FPATH in ls {
      LineIsContained(text, FPATH);
    }
    RestHasSnippet(ls, Kinds(ls), SnippetLines(Zsh));
  }

  lemma MarkerIsContained(text: string)
    requires First(Kinds(Lines(text))) < |Lines(text)|
    ensures Contains(text, MARKER)
  {
    var ls := Lines(text);
    var i := First(Kinds(ls));
    assert KindOf(ls[i]) == Marker;
    ContainsTrimmed(ls[i]);
    SubstringOfLine(text, i, MARKER);
  }

  lemma RestDiffers(text: string, rest: seq<string>)
    requires First(Kinds(Lines(text))) < |Lines(text)| && rest != Lines(text)
    requires forall i :: 0 <= i < |rest| ==> NoNewline(rest[i])
    ensures Unlines(rest) != text
  {
    if |rest| < |Lines(text)| {
      FewerLines(text, rest);
    } else {
      LinesOfUnlines(rest);
    }
  }

  lemma LinesAreLines(text: string, shell: Shell)
    ensures forall i :: 0 <= i < |Lines(text)| ==> NoNewline(Lines(text)[i])
    ensures forall i :: 0 <= i < |Lines(text) + SnippetLines(shell)| ==>
              NoNewline((Lines(text) + SnippetLines(shell))[i])
  {
    SnippetKinds(shell);
  }

  /** A profile with a marker line of its own does not come back. */
  lemma MarkedRoundTrip(shell: Shell, text: string)
    requires First(Kinds(Lines(text))) < |Lines(text)|
    ensures Removed(Installed(shell, text)) != text
  {
    var ls := Lines(text);
    MarkerIsContained(text);
    LinesAreLines(text, shell);
    if Contains(text, Probe(shell)) {
      RestIsLines(ls);
      RestDiffers(text, WithoutBlock(ls));
    } else {
      MarkedZsh(text);
    }
  }

  lemma MarkedZsh(text: string)
    requires First(Kinds(Lines(text))) < |Lines(text)| && !Contains(text, FPATH)
    ensures Removed(text + Snippet(Zsh)) != text
  {
    InstalledLines(Zsh, text);
    ContainsSnippet(Zsh, text);
    ZshRest(text);
    LinesAreLines(text, Zsh);
    RestIsLines(Lines(text) + SnippetLines(Zsh));
    RestDiffers(text, WithoutBlock(Lines(text) + SnippetLines(Zsh)));
  }

  lemma RestIsLines(ls: seq<string>)
    requires forall i :: 0 <= i < |ls| ==> NoNewline(ls[i])
    ensures forall i :: 0 <= i < |WithoutBlock(ls)| ==> NoNewline(WithoutBlock(ls)[i])
  {
  }

  /** Uninstall after install restores a profile byte for byte exactly when none of its lines is,
      up to surrounding blanks, the marker. */
  lemma RoundTrip(shell: Shell, text: string)
    ensures Removed(Installed(shell, text)) == text <==>
              forall k :: 0 <= k < |Lines(text)| ==> TrimSpace(Lines(text)[k]) != MARKER
  {
    var ls := Lines(text);
    var i := First(Kinds(ls));
    assert i < |ls| ==> KindOf(ls[i]) == Marker;
    assert forall k :: 0 <= k < |ls| ==> Kinds(ls)[k] == KindOf(ls[k]);
    if i == |ls| {
      CleanRoundTrip(shell, text);
    } else {
      MarkedRoundTrip(shell, text);
    }
  }

  /** A profile that does not come back, in any shell: the marker line alone. */
  lemma RoundTripFails(shell: Shell)
    ensures Removed(Installed(shell, MARKER)) != MARKER
  {
    MarkerLine();
    LinesSingle(MARKER);
    assert Lines(MARKER)[0] == MARKER && TrimSpace(Lines(MARKER)[0]) == MARKER;
    RoundTrip(shell, MARKER);
  }
}
