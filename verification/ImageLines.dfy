/**
 The `image:` lines of compose.yml (cli/cmd/update_compose.go): the reference patcher and the
 check that decides whether a regenerated file may be applied without asking.  The regular
 expressions become direct recognisers of one line; where an expression can match in several
 ways the recogniser takes the one leftmost-first matching takes.
 */
module ImageLines {

  import opened Text

  // ---------------------------------------------------------------- character classes

  /** RE2's \s. */
  predicate IsWs(c: char) {
    c == ' ' || c == '\t' || c == '\n' || c == '\r' || c == '\U{0C}'
  }

  predicate IsBlank(c: char) { c == ' ' || c == '\t' }

  predicate IsRepoChar(c: char) { !IsWs(c) && c != '@' && c != ':' }

  predicate IsDigit(c: char) { '0' <= c <= '9' }

  predicate All(p: char -> bool, s: string) {
    forall i :: 0 <= i < |s| ==> p(s[i])
  }

  predicate IsToken(s: string) {
    forall i :: 0 <= i < |s| ==> !IsWs(s[i])
  }

  /** Length of the longest leading run of characters in a class. */
  function Span(p: char -> bool, s: string): (k: nat)
    ensures k <= |s| && All(p, s[..k]) && (k < |s| ==> !p(s[k]))
  {
    if s == "" || !p(s[0]) then 0
    else
      var k := 1 + Span(p, s[1..]);
      assert s[..k] == [s[0]] + s[1..][..k - 1];
      k
  }

  lemma {:induction false} SpanIs(p: char -> bool, s: string, k: nat)
    requires k <= |s| && All(p, s[..k]) && (k < |s| ==> !p(s[k]))
    ensures Span(p, s) == k
  {
    if k > 0 {
      assert s[..k][0] == s[0];
      assert s[1..][..k - 1] == s[..k][1..];
      SpanIs(p, s[1..], k - 1);
    }
  }

  // ---------------------------------------------------------------- the end of a reference

  /** `[ \t]*(#[^\r\n]*)?$` on the rest of a line. */
  predicate Trailer(s: string) {
    var k := Span(IsBlank, s);
    k == |s| || (s[k] == '#' && '\r' !in s[k..])
  }

  predicate IsSep(c: char) { c == ':' || c == '@' }

  /** The rest `s` of a line is a suffix of length `k` (none, or `[:@]\S+`) and a trailer. */
  predicate Splits(s: string, k: nat) {
    k <= |s|
    && (k == 0 || (k >= 2 && IsSep(s[0]) && IsToken(s[1..k])))
    && Trailer(s[k..])
  }

  /** The largest split at or below `k`. */
  function SplitBelow(s: string, k: nat): (r: Option<nat>)
    requires k <= |s|
    ensures r.Some? ==> r.value <= k && Splits(s, r.value)
  {
    if Splits(s, k) then Some(k) else if k == 0 then None else SplitBelow(s, k - 1)
  }

  /** `([:@]\S+)?` is greedy and backs off only as far as it must: the longest split wins. */
  function Suffix(s: string): (r: Option<nat>)
    ensures r.Some? ==> Splits(s, r.value)
  {
    SplitBelow(s, |s|)
  }

  lemma {:induction false} SplitBelowIsLongest(s: string, k: nat, j: nat)
    requires j <= k <= |s| && Splits(s, j)
    ensures SplitBelow(s, k).Some? && j <= SplitBelow(s, k).value
  {
    if !Splits(s, k) {
      SplitBelowIsLongest(s, k - 1, j);
    }
  }

  lemma SuffixIsLongest(s: string, j: nat)
    requires Splits(s, j)
    ensures Suffix(s).Some? && j <= Suffix(s).value
  {
    SplitBelowIsLongest(s, |s|, j);
  }

  /** `[ \t]*image:\s+` at the start of a line. */
  function Head(line: string): (r: Option<nat>)
    ensures r.Some? ==> 0 < r.value <= |line| && (r.value < |line| ==> !IsWs(line[r.value]))
  {
    var b := Span(IsBlank, line);
    if !HasPrefix(line[b..], IMAGE) then None
    else
      var w := Span(IsWs, line[b + 6..]);
      assert b + 6 + w < |line| ==> line[b + 6..][w] == line[b + 6 + w];
      if w == 0 then None else Some(b + 6 + w)
  }

  /** A head is recognised by itself, whatever follows it. */
  lemma HeadStable(line: string, rest: string)
    requires Head(line).Some? && rest != "" && !IsWs(rest[0])
    ensures var h := Head(line).value; Head(line[..h] + rest) == Some(h)
  {
    var b := Span(IsBlank, line);
    HeadStableAt(line, b, Span(IsWs, line[b + 6..]), rest);
  }

  const IMAGE := "image:"

  lemma HeadStableAt(line: string, b: nat, w: nat, rest: string)
    requires b + 6 + w <= |line| && All(IsBlank, line[..b]) && line[b..][..6] == IMAGE
    requires w > 0 && All(IsWs, line[b + 6..][..w]) && rest != "" && !IsWs(rest[0])
    ensures Head(line[..b + 6 + w] + rest) == Some(b + 6 + w)
  {
    var ws := line[b + 6..][..w];
    var l := line[..b + 6 + w] + rest;
    Glue(line, b, b + 6, w, rest);
    assert IMAGE[0] == 'i';
    SpanOfRun(IsBlank, line[..b], line[b..][..6] + (ws + rest));
    SpanOfRun(IsWs, ws, rest);
    HeadIs(l, b, w);
  }

  lemma Glue(line: string, b: nat, c: nat, w: nat, rest: string)
    requires b < c && c + w <= |line|
    ensures var l, t := line[..c + w] + rest, line[b..][..c - b] + (line[c..][..w] + rest);
            && l == line[..b] + t && t[0] == line[b..][..c - b][0]
            && l[b..][..c - b] == line[b..][..c - b] && l[c..] == line[c..][..w] + rest
  {
  }

  lemma HeadIs(line: string, b: nat, w: nat)
    requires Span(IsBlank, line) == b && HasPrefix(line[b..], IMAGE)
    requires Span(IsWs, line[b + 6..]) == w > 0
    ensures Head(line) == Some(b + 6 + w)
  {
  }

  lemma SpanOfRun(p: char -> bool, run: string, rest: string)
    requires All(p, run) && rest != "" && !p(rest[0])
    ensures Span(p, run + rest) == |run|
  {
    assert (run + rest)[..|run|] == run;
    SpanIs(p, run + rest, |run|);
  }

  // ---------------------------------------------------------------- patching one line

  /** The parts of a reference line: head + repository prefix + service + suffix + trailer. */
  datatype Ref = Ref(head: string, service: string, suffix: string, trailer: string)

  function Render(repo: string, r: Ref): string {
    r.head + (repo + (r.service + (r.suffix + r.trailer)))
  }

  predicate IsService(n: string) { n == "backend" || n == "web" || n == "sandbox" }

  function ParseService(head: string, rest: string, service: string): Option<Ref> {
    if !HasPrefix(rest, service) then None
    else
      var tail := rest[|service|..];
      match Suffix(tail)
      case None => None
      case Some(k) => Some(Ref(head, service, tail[..k], tail[k..]))
  }

  function OrElse<T>(a: Option<T>, b: Option<T>): Option<T> {
    if a.Some? then a else b
  }

  function ParseRest(head: string, rest: string): Option<Ref> {
    OrElse(ParseService(head, rest, "backend"),
           OrElse(ParseService(head, rest, "web"), ParseService(head, rest, "sandbox")))
  }

  /** imageLinePattern on one line. */
  function Parse(repo: string, line: string): Option<Ref> {
    match Head(line)
    case None => None
    case Some(h) => ParseAfter(repo, line, h)
  }

  function ParseAfter(repo: string, line: string, h: nat): Option<Ref>
    requires h <= |line|
  {
    if !HasPrefix(line[h..], repo) then None else ParseRest(line[..h], line[h + |repo|..])
  }

  lemma ParseServiceParts(head: string, rest: string, service: string)
    requires ParseService(head, rest, service).Some?
    ensures var r := ParseService(head, rest, service).value;
            && r.head == head && r.service == service
            && rest == service + (r.suffix + r.trailer)
            && Suffix(r.suffix + r.trailer) == Some(|r.suffix|)
  {
    var tail := rest[|service|..];
    var k := Suffix(tail).value;
    assert tail == tail[..k] + tail[k..];
  }

  /** Every recognised line is its parts put together, in the only way the expression splits it. */
  lemma ParseParts(repo: string, line: string)
    requires Parse(repo, line).Some?
    ensures var r := Parse(repo, line).value;
            && line == Render(repo, r) && IsService(r.service)
            && Head(line) == Some(|r.head|) && r.head == line[..|r.head|]
            && Suffix(r.suffix + r.trailer) == Some(|r.suffix|)
            && Trailer(r.trailer) && '\r' !in r.trailer
  {
    var h, r := Head(line).value, Parse(repo, line).value;
    var head, rest := line[..h], line[h + |repo|..];
    assert line == head + (repo + rest);
    ParseServiceParts(head, rest, r.service);
    assert (r.suffix + r.trailer)[|r.suffix|..] == r.trailer;
    TrailerOnOneLine(r.trailer);
  }

  lemma TrailerOnOneLine(s: string)
    requires Trailer(s)
    ensures '\r' !in s
  {
    var k := Span(IsBlank, s);
    assert s == s[..k] + s[k..];
    assert forall i :: 0 <= i < k ==> IsBlank(s[..k][i]);
  }

  /** A recognised line does not end in a carriage return, so in a file with CRLF line ends none is recognised but
      perhaps an unterminated last one. */
  lemma NoCarriageReturn(repo: string, line: string)
    requires Parse(repo, line).Some?
    ensures line != "" && line[|line| - 1] != '\r'
  {
    ParseParts(repo, line);
    var r := Parse(repo, line).value;
    EndOfRender(repo, r);
    EndOfTail(r.service, r.suffix, r.trailer);
  }

  lemma EndOfTail(service: string, suffix: string, trailer: string)
    requires IsService(service) && Splits(suffix + trailer, |suffix|) && '\r' !in trailer
    ensures var tail := service + (suffix + trailer); tail[|tail| - 1] != '\r'
  {
    if trailer != "" {
      assert trailer[|trailer| - 1] in trailer;
    } else if suffix != "" {
      assert (suffix + trailer)[1..|suffix|] == suffix[1..];
      assert !IsWs(suffix[1..][|suffix| - 2]);
    }
  }

  lemma EndOfRender(repo: string, r: Ref)
    requires r.service != ""
    ensures var line, tail := Render(repo, r), r.service + (r.suffix + r.trailer);
            line != "" && line[|line| - 1] == tail[|tail| - 1]
  {
    var tail := r.service + (r.suffix + r.trailer);
    assert Render(repo, r) == (r.head + repo) + tail;
  }

  lemma ParseServiceOfParts(head: string, service: string, suffix: string, trailer: string)
    requires Suffix(suffix + trailer) == Some(|suffix|)
    ensures ParseService(head, service + (suffix + trailer), service) == Some(Ref(head, service, suffix, trailer))
  {
    var rest := service + (suffix + trailer);
    assert rest[..|service|] == service && rest[|service|..] == suffix + trailer;
    assert (suffix + trailer)[..|suffix|] == suffix && (suffix + trailer)[|suffix|..] == trailer;
  }

  lemma ParseRestOfParts(r: Ref)
    requires IsService(r.service) && Suffix(r.suffix + r.trailer) == Some(|r.suffix|)
    ensures ParseRest(r.head, r.service + (r.suffix + r.trailer)) == Some(r)
  {
    var rest := r.service + (r.suffix + r.trailer);
    ParseServiceOfParts(r.head, r.service, r.suffix, r.trailer);
    assert rest[0] == r.service[0];
    assert HasPrefix(rest, "backend") ==> rest[..7][0] == rest[0];
    assert HasPrefix(rest, "web") ==> rest[..3][0] == rest[0];
  }

  lemma ParseAt(repo: string, head: string, rest: string)
    ensures ParseAfter(repo, head + (repo + rest), |head|) == ParseRest(head, rest)
  {
    var l := head + (repo + rest);
    assert l[|head|..] == repo + rest && l[|head|..][..|repo|] == repo;
    assert l[|head| + |repo|..] == rest && l[..|head|] == head;
  }

  /** A line put together from parts is taken apart into the same parts. */
  lemma ParseOfRender(repo: string, line: string, r: Ref)
    requires repo != "" && !IsWs(repo[0]) && IsService(r.service)
    requires Head(line) == Some(|r.head|) && r.head == line[..|r.head|]
    requires Suffix(r.suffix + r.trailer) == Some(|r.suffix|)
    ensures Parse(repo, Render(repo, r)) == Some(r)
  {
    var rest := r.service + (r.suffix + r.trailer);
    HeadStable(line, repo + rest);
    ParseAt(repo, r.head, rest);
    ParseRestOfParts(r);
  }

  /** The new suffix: the service's pin if there is a non-empty one, else the tag. */
  function NewSuffix(tag: string, pins: map<string, string>, service: string): string {
    if service in pins && pins[service] != "" then "@" + pins[service] else ":" + tag
  }

  function PatchLine(repo: string, tag: string, pins: map<string, string>, line: string): string {
    match Parse(repo, line)
    case None => line
    case Some(r) => Render(repo, r.(suffix := NewSuffix(tag, pins, r.service)))
  }

  /** Image tags and digests have no whitespace and are not empty. */
  ghost predicate Tokens(tag: string, pins: map<string, string>) {
    && tag != "" && IsToken(tag)
    && forall n :: n in pins ==> IsToken(pins[n])
  }

  /** A trailer that a suffix written directly in front of it would swallow: it starts with a
      `#` run that reaches the end of the line or a blank before the comment proper. */
  ghost predicate Swallowed(trailer: string) {
    exists k :: 1 <= k && Continues(trailer, k)
  }

  predicate Continues(trailer: string, k: nat) {
    k <= |trailer| && IsToken(trailer[..k]) && Trailer(trailer[k..])
  }

  lemma SplitAfterSuffix(suffix: string, trailer: string, j: nat)
    requires |suffix| >= 2 && IsSep(suffix[0]) && IsToken(suffix[1..]) && j <= |trailer|
    ensures Splits(suffix + trailer, |suffix| + j) <==> Continues(trailer, j)
  {
    var s, m := suffix + trailer, |suffix|;
    assert s[m + j..] == trailer[j..];
    assert s[1..m + j] == suffix[1..] + trailer[..j];
    forall i | 0 <= i < j ensures trailer[..j][i] == s[1..m + j][m - 1 + i] {
    }
  }

  /** The split of `suffix + trailer` is at `suffix` exactly when the trailer is not swallowed. */
  lemma SplitAtSuffix(suffix: string, trailer: string)
    requires |suffix| >= 2 && IsSep(suffix[0]) && IsToken(suffix[1..]) && Trailer(trailer)
    ensures Suffix(suffix + trailer).Some? && Suffix(suffix + trailer).value >= |suffix|
    ensures Suffix(suffix + trailer) == Some(|suffix|) <==> !Swallowed(trailer)
  {
    var s, m := suffix + trailer, |suffix|;
    assert trailer[0..] == trailer && Continues(trailer, 0);
    SplitAfterSuffix(suffix, trailer, 0);
    SuffixIsLongest(s, m);
    LongestSplit(suffix, trailer, Suffix(s).value - m);
  }

  /** A longest split past the suffix is one that continues into the trailer, and the other way. */
  lemma LongestSplit(suffix: string, trailer: string, j: nat)
    requires |suffix| >= 2 && IsSep(suffix[0]) && IsToken(suffix[1..])
    requires Suffix(suffix + trailer) == Some(|suffix| + j)
    ensures j == 0 <==> !Swallowed(trailer)
  {
    assert j <= |trailer|;
    SplitAfterSuffix(suffix, trailer, j);
    if Swallowed(trailer) {
      var i :| 1 <= i && Continues(trailer, i);
      SplitAfterSuffix(suffix, trailer, i);
      SuffixIsLongest(suffix + trailer, |suffix| + i);
    }
  }

  /** A reference without tag or digest, with a `#` glued to it that a suffix would swallow. */
  ghost predicate Sticky(repo: string, line: string) {
    var r := Parse(repo, line);
    r.Some? && r.value.suffix == "" && Swallowed(r.value.trailer)
  }

  lemma NewSuffixShape(tag: string, pins: map<string, string>, service: string)
    requires Tokens(tag, pins)
    ensures var n := NewSuffix(tag, pins, service); |n| >= 2 && IsSep(n[0]) && IsToken(n[1..])
  {
    var n := NewSuffix(tag, pins, service);
    assert n[1..] == if service in pins && pins[service] != "" then pins[service] else tag;
  }

  /** Only a reference without tag and digest can have a trailer that a suffix would swallow. */
  lemma SuffixedIsNotSwallowed(suffix: string, trailer: string)
    requires Suffix(suffix + trailer) == Some(|suffix|) && suffix != ""
    ensures !Swallowed(trailer)
  {
    var s := suffix + trailer;
    assert s[1..|suffix|] == suffix[1..] && s[|suffix|..] == trailer;
    SplitAtSuffix(suffix, trailer);
  }

  /** Patching keeps the head and the trailer of a reference line and puts the pin or the tag
      between them; the patched line reads back as exactly that, unless the line is sticky. */
  lemma PatchedLine(repo: string, tag: string, pins: map<string, string>, line: string)
    requires repo != "" && !IsWs(repo[0]) && Tokens(tag, pins) && Parse(repo, line).Some?
    ensures var p := Parse(repo, line).value;
            var r := p.(suffix := NewSuffix(tag, pins, p.service));
            && line == Render(repo, p) && PatchLine(repo, tag, pins, line) == Render(repo, r)
            && (!Sticky(repo, line) ==> Parse(repo, PatchLine(repo, tag, pins, line)) == Some(r))
  {
    var p := Parse(repo, line).value;
    var r := p.(suffix := NewSuffix(tag, pins, p.service));
    ParseParts(repo, line);
    if !Sticky(repo, line) {
      NewSuffixShape(tag, pins, p.service);
      if p.suffix != "" {
        SuffixedIsNotSwallowed(p.suffix, p.trailer);
      }
      SplitAtSuffix(r.suffix, r.trailer);
      ParseOfRender(repo, line, r);
    }
  }

  /** Patching a line twice equals patching it once exactly when the line is not sticky. */
  lemma PatchLineTwice(repo: string, tag: string, pins: map<string, string>, line: string)
    requires repo != "" && !IsWs(repo[0]) && Tokens(tag, pins)
    ensures var once := PatchLine(repo, tag, pins, line);
            PatchLine(repo, tag, pins, once) == once <==> !Sticky(repo, line)
  {
    if Parse(repo, line).Some? {
      PatchedLine(repo, tag, pins, line);
      if Sticky(repo, line) {
        StickyShrinks(repo, tag, pins, line);
      }
    }
  }

  /** On a sticky line the second pass swallows part of the trailer. */
  lemma StickyShrinks(repo: string, tag: string, pins: map<string, string>, line: string)
    requires repo != "" && !IsWs(repo[0]) && Tokens(tag, pins) && Sticky(repo, line)
    ensures var once := PatchLine(repo, tag, pins, line);
            |PatchLine(repo, tag, pins, once)| < |once|
  {
    var p := Parse(repo, line).value;
    ParseParts(repo, line);
    NewSuffixShape(tag, pins, p.service);
    var suffix := NewSuffix(tag, pins, p.service);
    SplitAtSuffix(suffix, p.trailer);
    StickyParse(repo, line, p, suffix);
    PatchShrinks(repo, tag, pins, PatchLine(repo, tag, pins, line));
  }

  lemma StickyParse(repo: string, line: string, p: Ref, suffix: string)
    requires repo != "" && !IsWs(repo[0]) && IsService(p.service)
    requires Head(line) == Some(|p.head|) && p.head == line[..|p.head|]
    requires Suffix(suffix + p.trailer).Some?
    ensures var k := Suffix(suffix + p.trailer).value;
            Parse(repo, Render(repo, p.(suffix := suffix)))
              == Some(Ref(p.head, p.service, (suffix + p.trailer)[..k], (suffix + p.trailer)[k..]))
  {
    var all := suffix + p.trailer;
    var k := Suffix(all).value;
    var q := Ref(p.head, p.service, all[..k], all[k..]);
    assert q.suffix + q.trailer == all;
    ParseOfRender(repo, line, q);
  }

  lemma PatchShrinks(repo: string, tag: string, pins: map<string, string>, line: string)
    requires Parse(repo, line).Some?
    requires var q := Parse(repo, line).value; |NewSuffix(tag, pins, q.service)| < |q.suffix|
    ensures |PatchLine(repo, tag, pins, line)| < |line|
  {
    ParseParts(repo, line);
  }

  // ---------------------------------------------------------------- patching a file

  datatype PatchResult = Patched(text: string) | NoReferences | Missing(service: string)

  type Matcher = string -> Option<Ref>
  type Replacer = Ref -> string

  function MatcherFor(repo: string): Matcher {
    line => Parse(repo, line)
  }

  function ReplacerFor(repo: string, tag: string, pins: map<string, string>): Replacer {
    (r: Ref) => Render(repo, r.(suffix := NewSuffix(tag, pins, r.service)))
  }

  function ReplaceLine(m: Matcher, put: Replacer, line: string): string {
    if m(line).Some? then put(m(line).value) else line
  }

  function ReplaceLines(m: Matcher, put: Replacer, ls: seq<string>): (out: seq<string>)
    ensures |out| == |ls| && forall i :: 0 <= i < |ls| ==> out[i] == ReplaceLine(m, put, ls[i])
  {
    seq(|ls|, i requires 0 <= i < |ls| => ReplaceLine(m, put, ls[i]))
  }

  predicate HasService(m: Matcher, ls: seq<string>, service: string) {
    exists i :: 0 <= i < |ls| && m(ls[i]).Some? && m(ls[i]).value.service == service
  }

  /** The services a patch must find. */
  predicate Required(sandbox: bool, service: string) {
    service == "backend" || service == "web" || (sandbox && service == "sandbox")
  }

  function PatchWith(m: Matcher, put: Replacer, sandbox: bool, text: string): PatchResult {
    var ls := Lines(text);
    if forall i :: 0 <= i < |ls| ==> m(ls[i]).None? then NoReferences
    else if !HasService(m, ls, "backend") then Missing("backend")
    else if !HasService(m, ls, "web") then Missing("web")
    else if sandbox && !HasService(m, ls, "sandbox") then Missing("sandbox")
    else Patched(Unlines(ReplaceLines(m, put, ls)))
  }

  /** What patchComposeImageRefs makes of the file's text. */
  function Patch(repo: string, tag: string, pins: map<string, string>, sandbox: bool, text: string): PatchResult {
    PatchWith(MatcherFor(repo), ReplacerFor(repo, tag, pins), sandbox, text)
  }

  /** The replacing pass, which also fills the `replaced` map. */
  method ReplaceAll(m: Matcher, put: Replacer, ls: seq<string>) returns (out: seq<string>, replaced: set<string>)
    ensures out == ReplaceLines(m, put, ls)
    ensures forall n :: n in replaced <==> HasService(m, ls, n)
  {
    replaced := {};
    out := [];
    for i := 0 to |ls|
      invariant |out| == i && forall j :: 0 <= j < i ==> out[j] == ReplaceLine(m, put, ls[j])
      invariant forall n :: n in replaced <==> HasService(m, ls[..i], n)
    {
      var r := m(ls[i]);
      HasServiceAppend(m, ls[..i], ls[i]);
      assert ls[..i + 1] == ls[..i] + [ls[i]];
      if r.Some? {
        replaced := replaced + {r.value.service};
        out := out + [put(r.value)];
      } else {
        out := out + [ls[i]];
      }
    }
    assert ls[..|ls|] == ls;
  }

  lemma HasServiceAppend(m: Matcher, ls: seq<string>, l: string)
    ensures forall n :: HasService(m, ls + [l], n) <==> HasService(m, ls, n) || (m(l).Some? && m(l).value.service == n)
  {
    forall n ensures HasService(m, ls + [l], n) <==> HasService(m, ls, n) || (m(l).Some? && m(l).value.service == n) {
      if m(l).Some? && m(l).value.service == n {
        assert (ls + [l])[|ls|] == l;
      }
      if HasService(m, ls, n) {
        var i :| 0 <= i < |ls| && m(ls[i]).Some? && m(ls[i]).value.service == n;
        assert (ls + [l])[i] == ls[i];
      }
    }
  }

  /** The pass over a file, then the check of the required services. */
  method PatchFile(m: Matcher, put: Replacer, sandbox: bool, existing: string) returns (r: PatchResult)
    ensures r == PatchWith(m, put, sandbox, existing)
  {
    var ls := Lines(existing);
    var out, replaced := ReplaceAll(m, put, ls);
    if i :| 0 <= i < |ls| && m(ls[i]).Some? {
      assert HasService(m, ls, m(ls[i]).value.service);
    }
    if replaced == {} {
      return NoReferences;
    }
    ghost var n :| n in replaced;
    assert HasService(m, ls, n);
    var required := ["backend", "web"] + if sandbox then ["sandbox"] else [];
    assert required[0] == "backend" && required[1] == "web"
           && (|required| == 3 ==> sandbox && required[2] == "sandbox");
    for i := 0 to |required|
      invariant forall j :: 0 <= j < i ==> required[j] in replaced
    {
      assert i >= 1 ==> required[0] in replaced;
      assert i >= 2 ==> required[1] in replaced;
      if required[i] !in replaced {
        return Missing(required[i]);
      }
    }
    assert required[0] in replaced && required[1] in replaced && (sandbox ==> required[2] in replaced);
    return Patched(Unlines(out));
  }

  /** Patching succeeds exactly when every required service has a reference line. */
  lemma PatchSucceeds(m: Matcher, put: Replacer, sandbox: bool, text: string)
    ensures PatchWith(m, put, sandbox, text).Patched? <==>
              forall n :: Required(sandbox, n) ==> HasService(m, Lines(text), n)
  {
    assert Required(sandbox, "backend") && Required(sandbox, "web") && (sandbox ==> Required(sandbox, "sandbox"));
  }

  /** Repository prefixes, tags and digests hold no whitespace. */
  ghost predicate Plain(repo: string, tag: string, pins: map<string, string>) {
    repo != "" && IsToken(repo) && Tokens(tag, pins)
  }

  lemma NoNewlineRender(repo: string, r: Ref)
    ensures NoNewline(Render(repo, r)) <==>
              NoNewline(r.head) && NoNewline(repo) && NoNewline(r.service) && NoNewline(r.suffix)
              && NoNewline(r.trailer)
  {
    NoNewlineAppend(r.suffix, r.trailer);
    NoNewlineAppend(r.service, r.suffix + r.trailer);
    NoNewlineAppend(repo, r.service + (r.suffix + r.trailer));
    NoNewlineAppend(r.head, repo + (r.service + (r.suffix + r.trailer)));
  }

  lemma PatchLineNoNewline(repo: string, tag: string, pins: map<string, string>, line: string)
    requires Plain(repo, tag, pins) && NoNewline(line)
    ensures NoNewline(PatchLine(repo, tag, pins, line))
  {
    if Parse(repo, line).Some? {
      ParseParts(repo, line);
      var p := Parse(repo, line).value;
      var n := NewSuffix(tag, pins, p.service);
      NoNewlineRender(repo, p);
      NewSuffixNoNewline(tag, pins, p.service);
      NoNewlineRender(repo, p.(suffix := n));
    }
  }

  lemma NewSuffixNoNewline(tag: string, pins: map<string, string>, service: string)
    requires Tokens(tag, pins)
    ensures NoNewline(NewSuffix(tag, pins, service))
  {
    NewSuffixShape(tag, pins, service);
    var n := NewSuffix(tag, pins, service);
    assert forall i :: 0 <= i < |n| - 1 ==> n[1..][i] == n[i + 1];
  }

  lemma ReplaceLineIsPatchLine(repo: string, tag: string, pins: map<string, string>, line: string)
    ensures ReplaceLine(MatcherFor(repo), ReplacerFor(repo, tag, pins), line) == PatchLine(repo, tag, pins, line)
    ensures MatcherFor(repo)(line) == Parse(repo, line)
  {
  }

  /** The lines of the patched file are the replaced lines of the file. */
  lemma PatchedFileLines(m: Matcher, put: Replacer, sandbox: bool, text: string)
    requires forall l :: NoNewline(l) ==> NoNewline(ReplaceLine(m, put, l))
    requires PatchWith(m, put, sandbox, text).Patched?
    ensures Lines(PatchWith(m, put, sandbox, text).text) == ReplaceLines(m, put, Lines(text))
  {
    LinesOfUnlines(ReplaceLines(m, put, Lines(text)));
  }

  /** Patching changes reference lines only, and of those only what lies between the service name
      and the trailer; unless the line is sticky it then carries the pin or the tag. */
  lemma PatchChangesOnlyReferences(repo: string, tag: string, pins: map<string, string>, sandbox: bool, text: string,
                                   i: nat)
    requires Plain(repo, tag, pins) && Patch(repo, tag, pins, sandbox, text).Patched? && i < |Lines(text)|
    ensures var after := Lines(Patch(repo, tag, pins, sandbox, text).text);
            && |after| == |Lines(text)|
            && match Parse(repo, Lines(text)[i])
               case None => after[i] == Lines(text)[i]
               case Some(p) =>
                 && Lines(text)[i] == Render(repo, p)
                 && after[i] == Render(repo, p.(suffix := NewSuffix(tag, pins, p.service)))
                 && (!Sticky(repo, Lines(text)[i]) ==>
                       Parse(repo, after[i]) == Some(p.(suffix := NewSuffix(tag, pins, p.service))))
  {
    PatchLinesKeepNewlines(repo, tag, pins);
    PatchedFileLines(MatcherFor(repo), ReplacerFor(repo, tag, pins), sandbox, text);
    ReplaceLineIsPatchLine(repo, tag, pins, Lines(text)[i]);
    if Parse(repo, Lines(text)[i]).Some? {
      PatchedLine(repo, tag, pins, Lines(text)[i]);
    }
  }

  lemma PatchLinesKeepNewlines(repo: string, tag: string, pins: map<string, string>)
    requires Plain(repo, tag, pins)
    ensures forall l :: NoNewline(l) ==> NoNewline(ReplaceLine(MatcherFor(repo), ReplacerFor(repo, tag, pins), l))
  {
    forall l | NoNewline(l) ensures NoNewline(ReplaceLine(MatcherFor(repo), ReplacerFor(repo, tag, pins), l)) {
      PatchLineNoNewline(repo, tag, pins, l);
      ReplaceLineIsPatchLine(repo, tag, pins, l);
    }
  }

  /** A second pass over a file changes nothing exactly when it changes none of its lines. */
  lemma PatchTwiceIsPerLine(m: Matcher, put: Replacer, sandbox: bool, text: string)
    requires forall l :: NoNewline(l) ==> NoNewline(ReplaceLine(m, put, l))
    requires PatchWith(m, put, sandbox, text).Patched?
    requires forall i :: 0 <= i < |Lines(text)| && m(Lines(text)[i]).Some? && TwiceIsOnce(m, put, Lines(text)[i]) ==>
               var r := m(ReplaceLine(m, put, Lines(text)[i]));
               r.Some? && r.value.service == m(Lines(text)[i]).value.service
    ensures var once := PatchWith(m, put, sandbox, text);
            PatchWith(m, put, sandbox, once.text) == once <==>
              forall i :: 0 <= i < |Lines(text)| ==> TwiceIsOnce(m, put, Lines(text)[i])
  {
    var once := PatchWith(m, put, sandbox, text);
    var ls := Lines(text);
    PatchedFileLines(m, put, sandbox, text);
    var ms := Lines(once.text);
    if forall i :: 0 <= i < |ls| ==> TwiceIsOnce(m, put, ls[i]) {
      assert ReplaceLines(m, put, ms) == ms;
      UnlinesOfLines(once.text);
      forall n | HasService(m, ls, n) ensures HasService(m, ms, n) {
        var i :| 0 <= i < |ls| && m(ls[i]).Some? && m(ls[i]).value.service == n;
        assert ms[i] == ReplaceLine(m, put, ls[i]);
      }
      PatchSucceeds(m, put, sandbox, text);
      PatchSucceeds(m, put, sandbox, once.text);
    }
    if PatchWith(m, put, sandbox, once.text) == once {
      PatchedFileLines(m, put, sandbox, once.text);
      forall i | 0 <= i < |ls| ensures TwiceIsOnce(m, put, ls[i]) {
        assert ms[i] == ReplaceLine(m, put, ls[i]) && ReplaceLines(m, put, ms)[i] == ReplaceLine(m, put, ms[i]);
      }
    }
  }

  ghost predicate TwiceIsOnce(m: Matcher, put: Replacer, line: string) {
    ReplaceLine(m, put, ReplaceLine(m, put, line)) == ReplaceLine(m, put, line)
  }

  /** Patching a file again changes nothing exactly when the file had no sticky line. */
  lemma PatchTwice(repo: string, tag: string, pins: map<string, string>, sandbox: bool, text: string)
    requires Plain(repo, tag, pins) && Patch(repo, tag, pins, sandbox, text).Patched?
    ensures var once := Patch(repo, tag, pins, sandbox, text);
            Patch(repo, tag, pins, sandbox, once.text) == once <==>
              forall i :: 0 <= i < |Lines(text)| ==> !Sticky(repo, Lines(text)[i])
  {
    var m, put := MatcherFor(repo), ReplacerFor(repo, tag, pins);
    var ls := Lines(text);
    PatchLinesKeepNewlines(repo, tag, pins);
    forall i | 0 <= i < |ls|
      ensures TwiceIsOnce(m, put, ls[i]) <==> !Sticky(repo, ls[i])
      ensures m(ls[i]).Some? && TwiceIsOnce(m, put, ls[i]) ==>
                var r := m(ReplaceLine(m, put, ls[i]));
                r.Some? && r.value.service == m(ls[i]).value.service
    {
      StickyIsTwice(repo, tag, pins, ls[i]);
    }
    PatchTwiceIsPerLine(m, put, sandbox, text);
  }

  lemma StickyIsTwice(repo: string, tag: string, pins: map<string, string>, line: string)
    requires Plain(repo, tag, pins)
    ensures var m, put := MatcherFor(repo), ReplacerFor(repo, tag, pins);
            && (TwiceIsOnce(m, put, line) <==> !Sticky(repo, line))
            && (m(line).Some? && TwiceIsOnce(m, put, line) ==>
                  var r := m(ReplaceLine(m, put, line));
                  r.Some? && r.value.service == m(line).value.service)
  {
    ReplaceLineIsPatchLine(repo, tag, pins, line);
    ReplaceLineIsPatchLine(repo, tag, pins, PatchLine(repo, tag, pins, line));
    PatchLineTwice(repo, tag, pins, line);
    if Parse(repo, line).Some? {
      PatchedLine(repo, tag, pins, line);
    }
  }

  lemma SuffixOfGluedComment()
    ensures Suffix("#x") == Some(0) && Swallowed("#x")
  {
    var s := "#x";
    SpanIs(IsBlank, s, 0);
    assert s[0..] == s;
    assert Splits(s, 0) && !Splits(s, 1) && !Splits(s, 2);
    assert SplitBelow(s, 1) == SplitBelow(s, 0) == Some(0);
    assert Continues(s, 2);
  }

  lemma HeadOfImage()
    ensures Head("image: r") == Some(7)
  {
    var line := "image: r";
    SpanIs(IsBlank, line, 0);
    assert line[0..] == line && line[..6] == "image:" && line[6..] == " r";
    SpanIs(IsWs, " r", 1);
  }

  /** Sticky lines exist, for every repository prefix: a comment written without the blank, on a
      reference without tag. */
  lemma StickyExample(repo: string)
    requires repo != "" && IsToken(repo)
    ensures Sticky(repo, "image: " + (repo + ("web" + "#x")))
    ensures Parse(repo, "image: " + (repo + ("web" + "#x"))) == Some(Ref("image: ", "web", "", "#x"))
  {
    var r := Ref("image: ", "web", "", "#x");
    HeadOfImage();
    assert "image: r"[..7] == r.head;
    SuffixOfGluedComment();
    assert r.suffix + r.trailer == "#x";
    ParseOfRender(repo, "image: r", r);
  }

  /** A file that patches and then patches differently: a backend line and a sticky web line. */
  function StickyFile(repo: string): string {
    "image: " + (repo + "backend") + "\n" + ("image: " + (repo + ("web" + "#x")))
  }

  lemma BackendLine(repo: string)
    requires repo != "" && IsToken(repo)
    ensures Parse(repo, "image: " + (repo + "backend")) == Some(Ref("image: ", "backend", "", ""))
  {
    var r := Ref("image: ", "backend", "", "");
    HeadOfImage();
    assert "image: r"[..7] == r.head;
    assert r.suffix + r.trailer == "" && Splits("", 0) && Suffix("") == Some(0);
    ParseOfRender(repo, "image: r", r);
    assert Render(repo, r) == "image: " + (repo + "backend");
  }

  lemma StickyFileLines(repo: string)
    requires repo != "" && IsToken(repo)
    ensures Lines(StickyFile(repo)) == ["image: " + (repo + "backend"), "image: " + (repo + ("web" + "#x"))]
  {
    var a, b := "image: " + (repo + "backend"), "image: " + (repo + ("web" + "#x"));
    LinesAppend(a, b);
    LinesSingle(a);
    LinesSingle(b);
  }

  /** Patching that file succeeds, patching the result again gives something else, and with the sandbox on
      patching fails. */
  lemma StickyFileChangesTwice(repo: string, tag: string, pins: map<string, string>)
    requires Plain(repo, tag, pins)
    ensures var once := Patch(repo, tag, pins, false, StickyFile(repo));
            once.Patched? && Patch(repo, tag, pins, false, once.text) != once
    ensures !Patch(repo, tag, pins, true, StickyFile(repo)).Patched?
  {
    StickyFileLines(repo);
    BackendLine(repo);
    StickyExample(repo);
    TwoLines(repo, tag, pins, StickyFile(repo), "image: " + (repo + "backend"), "image: " + (repo + ("web" + "#x")));
  }

  lemma TwoLines(repo: string, tag: string, pins: map<string, string>, text: string, a: string, b: string)
    requires Plain(repo, tag, pins) && Lines(text) == [a, b] && Sticky(repo, b)
    requires Parse(repo, a).Some? && Parse(repo, a).value.service == "backend" && Parse(repo, b).value.service == "web"
    ensures var once := Patch(repo, tag, pins, false, text);
            once.Patched? && Patch(repo, tag, pins, false, once.text) != once
    ensures !Patch(repo, tag, pins, true, text).Patched?
  {
    TwoLinesPatch(MatcherFor(repo), ReplacerFor(repo, tag, pins), text, a, b);
    StickySecondPass(repo, tag, pins, text, 1);
  }

  lemma StickySecondPass(repo: string, tag: string, pins: map<string, string>, text: string, i: nat)
    requires Plain(repo, tag, pins) && Patch(repo, tag, pins, false, text).Patched?
    requires i < |Lines(text)| && Sticky(repo, Lines(text)[i])
    ensures var once := Patch(repo, tag, pins, false, text); Patch(repo, tag, pins, false, once.text) != once
  {
    PatchTwice(repo, tag, pins, false, text);
  }

  lemma TwoLinesPatch(m: Matcher, put: Replacer, text: string, a: string, b: string)
    requires Lines(text) == [a, b]
    requires m(a).Some? && m(a).value.service == "backend" && m(b).Some? && m(b).value.service == "web"
    ensures PatchWith(m, put, false, text).Patched? && !PatchWith(m, put, true, text).Patched?
  {
    TwoServices(m, a, b);
    PatchSucceeds(m, put, false, text);
    PatchSucceeds(m, put, true, text);
    assert Required(true, "sandbox") && !HasService(m, [a, b], "sandbox");
  }

  lemma TwoServices(m: Matcher, a: string, b: string)
    requires m(a).Some? && m(a).value.service == "backend" && m(b).Some? && m(b).value.service == "web"
    ensures forall n :: Required(false, n) ==> HasService(m, [a, b], n)
  {
    assert [a, b][0] == a && [a, b][1] == b;
  }

  /** With the sandbox on, no file without a sandbox reference line can be patched; the template writes
      none. */
  lemma SandboxNeedsItsLine(repo: string, tag: string, pins: map<string, string>, text: string)
    requires forall i :: 0 <= i < |Lines(text)| && Parse(repo, Lines(text)[i]).Some? ==>
               Parse(repo, Lines(text)[i]).value.service != "sandbox"
    ensures !Patch(repo, tag, pins, true, text).Patched?
  {
    PatchSucceeds(MatcherFor(repo), ReplacerFor(repo, tag, pins), true, text);
    assert Required(true, "sandbox");
    assert !HasService(MatcherFor(repo), Lines(text), "sandbox");
  }

  // ---------------------------------------------------------------- the mount of nats.conf

  /** The line by which compose.yml refers to the side file. */
  predicate MountsNats(line: string) {
    var b := Span(IsBlank, line);
    HasPrefix(line[b..], "- ./nats.conf:")
  }

  predicate ReferencesNats(text: string) {
    exists i :: 0 <= i < |Lines(text)| && MountsNats(Lines(text)[i])
  }

  lemma MountOfPrefix(line: string, cut: string)
    requires HasPrefix(line, cut) && MountsNats(cut)
    ensures MountsNats(line)
  {
    var b := Span(IsBlank, cut);
    assert cut[b..][0] == '-' == cut[b] == line[b];
    assert line[..b] == cut[..b];
    SpanIs(IsBlank, line, b);
    assert line[b..][..14] == cut[b..][..14];
  }

  /** Cutting a file short cannot make it refer to nats.conf. */
  lemma ReferenceOfPrefix(text: string, n: nat)
    requires n <= |text| && ReferencesNats(text[..n])
    ensures ReferencesNats(text)
  {
    var i :| 0 <= i < |Lines(text[..n])| && MountsNats(Lines(text[..n])[i]);
    LinesOfPrefix(text, n, i);
    MountOfPrefix(Lines(text)[i], Lines(text[..n])[i]);
  }

  lemma HeadIsNotMount(line: string)
    requires Head(line).Some?
    ensures !MountsNats(line)
  {
    var b := Span(IsBlank, line);
    assert line[b..][..6][0] == 'i' == line[b..][0];
  }

  lemma PatchLineKeepsMount(repo: string, tag: string, pins: map<string, string>, line: string)
    requires Plain(repo, tag, pins)
    ensures MountsNats(PatchLine(repo, tag, pins, line)) <==> MountsNats(line)
  {
    if Parse(repo, line).Some? {
      ParseParts(repo, line);
      HeadIsNotMount(line);
      var p := Parse(repo, line).value;
      HeadStable(line, repo + (p.service + (NewSuffix(tag, pins, p.service) + p.trailer)));
      HeadIsNotMount(PatchLine(repo, tag, pins, line));
    }
  }

  /** Patching image references neither adds nor drops the mount of nats.conf. */
  lemma PatchKeepsReference(repo: string, tag: string, pins: map<string, string>, sandbox: bool, text: string)
    requires Plain(repo, tag, pins) && Patch(repo, tag, pins, sandbox, text).Patched?
    ensures ReferencesNats(Patch(repo, tag, pins, sandbox, text).text) <==> ReferencesNats(text)
  {
    PatchLinesKeepNewlines(repo, tag, pins);
    PatchedFileLines(MatcherFor(repo), ReplacerFor(repo, tag, pins), sandbox, text);
    var ls := Lines(text);
    var after := Lines(Patch(repo, tag, pins, sandbox, text).text);
    forall i | 0 <= i < |ls| ensures MountsNats(after[i]) <==> MountsNats(ls[i]) {
      ReplaceLineIsPatchLine(repo, tag, pins, ls[i]);
      PatchLineKeepsMount(repo, tag, pins, ls[i]);
    }
  }
}
