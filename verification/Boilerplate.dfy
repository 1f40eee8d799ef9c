/**
 Which regenerated compose files are applied without asking (isUpdateBoilerplateOnly in
 cli/cmd/update_compose.go).
 */
module Boilerplate {

  import opened Text
  import opened ImageLines

  const HEADER := "# Generated by SynthOrg CLI"

  /** What extractImageRepo says about an image line. */
  datatype Image = Image(repo: string, hasTag: bool, hasDigest: bool)

  // ---------------------------------------------------------------- extractImageRepo

  /** Whether a rest of a line can be a suffix and a trailer. */
  predicate CanEnd(s: string) { Suffix(s).Some? }

  /** The longest repository of a length in [lo, n] after which the line can end. */
  function LongestRepo(ends: string -> bool, r: string, lo: nat, n: nat): (k: Option<nat>)
    requires n <= |r|
    ensures k.Some? ==> lo <= k.value <= n && ends(r[k.value..])
    decreases n
  {
    if n < lo then None
    else if ends(r[n..]) then Some(n)
    else if n == 0 then None
    else LongestRepo(ends, r, lo, n - 1)
  }

  /** The digits of a port after a host of length `n`. */
  function PortDigits(r: string, n: nat): (d: nat)
    requires n <= |r|
    ensures d > 0 ==> n + 1 + d <= |r|
  {
    if n < |r| && r[n] == ':' then Span(IsDigit, r[n + 1..]) else 0
  }

  /** The path after a port that ends at `q`. */
  function PathLength(r: string, q: nat): (k: nat)
    requires q <= |r|
    ensures q + k <= |r|
  {
    if q < |r| && r[q] == '/' then Span(IsRepoChar, r[q..]) else 0
  }

  /** The reading with a port (and at least one character after a slash) is tried before the one without. */
  function RepoFrom(ends: string -> bool, r: string, n: nat, d: nat, path: nat): (k: Option<nat>)
    requires n <= |r| && (d > 0 ==> n + 1 + d + path <= |r|)
    ensures k.Some? ==> 1 <= k.value <= |r| && ends(r[k.value..])
  {
    var q := n + 1 + d;
    if n == 0 then None
    else if d > 0 && LongestRepo(ends, r, q + 2, q + path).Some? then LongestRepo(ends, r, q + 2, q + path)
    else if d > 0 && ends(r[q..]) then Some(q)
    else LongestRepo(ends, r, 1, n)
  }

  function RepoLength(ends: string -> bool, r: string): (k: Option<nat>)
    ensures k.Some? ==> 1 <= k.value <= |r| && ends(r[k.value..])
  {
    var n := Span(IsRepoChar, r);
    var d := PortDigits(r, n);
    RepoFrom(ends, r, n, d, if d > 0 then PathLength(r, n + 1 + d) else 0)
  }

  /** Where the expression cuts a line: after the head, the repository and the suffix. */
  datatype Cut = Cut(head: nat, repo: nat, suffix: nat)

  function CutLine(line: string): (c: Option<Cut>)
    ensures c.Some? ==> c.value.head <= |line| && 1 <= c.value.repo <= |line| - c.value.head
                        && Splits(line[c.value.head..][c.value.repo..], c.value.suffix)
  {
    match Head(line)
    case None => None
    case Some(h) =>
      match RepoLength(CanEnd, line[h..])
      case None => None
      case Some(n) => Some(Cut(h, n, Suffix(line[h..][n..]).value))
  }

  function ImageAt(line: string, h: nat, n: nat, k: nat): Image
    requires h <= |line| && n <= |line| - h && k <= |line| - h - n
  {
    var suffix := line[h..][n..][..k];
    Image(line[h..][..n], suffix != "" && suffix[0] == ':', '@' in suffix)
  }

  function Extract(line: string): Option<Image> {
    match CutLine(line)
    case None => None
    case Some(c) => Some(ImageAt(line, c.head, c.repo, c.suffix))
  }

  /** A recognised line is head, repository, suffix and trailer, and the two flags describe the suffix. */
  lemma ExtractParts(line: string, c: Cut)
    requires CutLine(line) == Some(c)
    ensures Extract(line) == Some(ImageAt(line, c.head, c.repo, c.suffix))
    ensures var rest := line[c.head..][c.repo..];
            Parts(line, ImageAt(line, c.head, c.repo, c.suffix), line[..c.head], rest[..c.suffix], rest[c.suffix..])
  {
    SuffixParts(line, c.head, c.repo, c.suffix);
  }

  lemma SuffixParts(line: string, h: nat, n: nat, k: nat)
    requires h <= |line| && 1 <= n <= |line| - h && Splits(line[h..][n..], k)
    ensures Parts(line, ImageAt(line, h, n, k), line[..h], line[h..][n..][..k], line[h..][n..][k..])
  {
    var t := line[h..][n..];
    assert t == t[..k] + t[k..];
    assert line == line[..h] + (line[h..][..n] + t);
    if k > 0 {
      assert t[..k][1..] == t[1..k];
    }
  }

  ghost predicate Parts(line: string, i: Image, head: string, suffix: string, trailer: string) {
    && line == head + (i.repo + (suffix + trailer)) && i.repo != "" && Trailer(trailer)
    && (suffix == "" || (|suffix| >= 2 && IsSep(suffix[0]) && IsToken(suffix[1..])))
    && (i.hasTag <==> suffix != "" && suffix[0] == ':')
    && (i.hasDigest <==> '@' in suffix)
  }

  // ---------------------------------------------------------------- which tags are seen

  predicate IsTagChar(c: char) { 'a' <= c <= 'z' || 'A' <= c <= 'Z' || IsDigit(c) || c == '.' || c == '_' || c == '-' }

  lemma {:induction false} NoSplitBelow(s: string, k: nat)
    requires k <= |s| && s != "" && !IsBlank(s[0]) && s[0] != '#' && !IsSep(s[0])
    ensures SplitBelow(s, k).None?
  {
    if k == 0 {
      assert s[0..] == s;
      SpanIs(IsBlank, s, 0);
    } else {
      NoSplitBelow(s, k - 1);
    }
  }

  /** A reference as it is written: without a port, the path is part of the host. */
  datatype Written =
    Written(host: string, port: Option<string>, path: string, tag: Option<string>, digest: Option<string>)
  {
    predicate WellWritten() {
      && host != "" && All(IsRepoChar, host)
      && (port.Some? ==> port.value != "" && All(IsDigit, port.value))
      && (path == "" || (port.Some? && |path| >= 2 && path[0] == '/' && All(IsRepoChar, path)))
      && (tag.Some? ==> tag.value != "" && All(IsTagChar, tag.value))
      && (digest.Some? ==> digest.value != "" && IsToken(digest.value))
    }

    function PortText(): string { if port.Some? then ":" + port.value else "" }

    function Repository(): string { host + (PortText() + path) }

    function TagText(): string { if tag.Some? then ":" + tag.value else "" }

    function DigestText(): string { if digest.Some? then "@" + digest.value else "" }

    /** A numeric tag after a repository without a port reads as the port. */
    predicate Folds() { port.None? && tag.Some? && All(IsDigit, tag.value) }
  }

  /** The end of a line: nothing, or blanks and perhaps a comment. */
  predicate Ending(trailer: string) {
    Trailer(trailer) && (trailer == "" || IsBlank(trailer[0]))
  }

  predicate IsSuffix(s: string) {
    s == "" || (|s| >= 2 && IsSep(s[0]) && IsToken(s[1..]))
  }

  lemma {:induction false} OnlyEmptySplit(s: string, k: nat)
    requires k <= |s| && Ending(s)
    ensures SplitBelow(s, k) == Some(0)
  {
    assert s[0..] == s;
    if k > 0 {
      OnlyEmptySplit(s, k - 1);
    }
  }

  /** Before the end of a line, a suffix is read as the whole of itself. */
  lemma SuffixBeforeEnding(suffix: string, trailer: string)
    requires IsSuffix(suffix) && Ending(trailer)
    ensures Suffix(suffix + trailer) == Some(|suffix|)
  {
    if suffix == "" {
      assert suffix + trailer == trailer;
      OnlyEmptySplit(trailer, |trailer|);
    } else {
      forall k | 1 <= k ensures !Continues(trailer, k) {
        assert k <= |trailer| ==> trailer[..k][0] == trailer[0];
      }
      SplitAtSuffix(suffix, trailer);
    }
  }

  /** The text ends a run of the class. */
  predicate Stops(p: char -> bool, s: string) { s == "" || !p(s[0]) }

  lemma SpanBefore(p: char -> bool, run: string, rest: string)
    requires All(p, run) && Stops(p, rest)
    ensures Span(p, run + rest) == |run|
  {
    assert (run + rest)[..|run|] == run;
    SpanIs(p, run + rest, |run|);
  }

  predicate IsPath(path: string) {
    path == "" || (|path| >= 2 && path[0] == '/' && All(IsRepoChar, path))
  }

  /** `n` characters of host, `d` digits of port and `k` characters of path. */
  predicate Ported(r: string, n: nat, d: nat, k: nat) {
    && 0 < n && 0 < d && n + 1 + d + k <= |r| && r[n] == ':'
    && All(IsRepoChar, r[..n]) && All(IsDigit, r[n + 1..][..d]) && IsPath(r[n + 1 + d..][..k])
    && Stops(IsRepoChar, r[n + 1 + d + k..])
  }

  lemma PortDigitsAt(r: string, n: nat, d: nat, k: nat)
    requires Ported(r, n, d, k)
    ensures PortDigits(r, n) == d
  {
    var q := n + 1 + d;
    assert k > 0 ==> r[q..][..k][0] == '/' == r[q];
    assert k == 0 && q < |r| ==> r[q + k..][0] == r[q];
    assert q < |r| ==> r[n + 1..][d] == r[q];
    SpanIs(IsDigit, r[n + 1..], d);
  }

  lemma PathLengthAt(r: string, n: nat, d: nat, k: nat)
    requires Ported(r, n, d, k)
    ensures PathLength(r, n + 1 + d) == k
  {
    var q := n + 1 + d;
    assert k > 0 ==> r[q..][..k][0] == '/' == r[q];
    assert k == 0 && q < |r| ==> r[q + k..][0] == r[q];
    assert q + k < |r| ==> r[q..][k] == r[q + k..][0];
    SpanIs(IsRepoChar, r[q..], k);
  }

  /** Host, port and path, before something that can end the line. */
  lemma PortedRepo(ends: string -> bool, r: string, n: nat, d: nat, k: nat)
    requires Ported(r, n, d, k) && ends(r[n + 1 + d + k..])
    ensures RepoLength(ends, r) == Some(n + 1 + d + k)
  {
    SpanIs(IsRepoChar, r, n);
    PortDigitsAt(r, n, d, k);
    PathLengthAt(r, n, d, k);
    RepoFromPort(ends, r, n, d, k);
  }

  lemma PortedText(host: string, port: string, path: string, rest: string)
    requires host != "" && All(IsRepoChar, host) && port != "" && All(IsDigit, port) && IsPath(path)
             && Stops(IsRepoChar, rest)
    ensures var r := (host + (":" + (port + path))) + rest;
            Ported(r, |host|, |port|, |path|) && r[|host| + 1 + |port| + |path|..] == rest
  {
    var r, q := (host + (":" + (port + path))) + rest, |host| + 1 + |port|;
    assert r[..|host|] == host && r[|host| + 1..][..|port|] == port && r[q..][..|path|] == path
           && r[q + |path|..] == rest;
  }

  lemma RepoFromPort(ends: string -> bool, r: string, n: nat, d: nat, path: nat)
    requires n > 0 && d > 0 && path != 1 && n + 1 + d + path <= |r| && ends(r[n + 1 + d + path..])
    ensures RepoFrom(ends, r, n, d, path) == Some(n + 1 + d + path)
  {
  }

  lemma RepoFromHost(ends: string -> bool, r: string, n: nat, d: nat)
    requires 0 < n <= |r| && ends(r[n..]) && (d > 0 ==> n + 1 + d <= |r| && !ends(r[n + 1 + d..]))
    ensures RepoFrom(ends, r, n, d, 0) == Some(n)
  {
  }

  /** No digits at the start of the text, or none after which the line can end. */
  predicate NoPort(ends: string -> bool, t: string) {
    var d := Span(IsDigit, t);
    d == 0 || (Stops(IsSlash, t[d..]) && !ends(t[d..]))
  }

  predicate IsSlash(c: char) { c == '/' }

  /** A host, and no port. */
  lemma PlainRepo(ends: string -> bool, r: string, host: string, rest: string)
    requires r == host + rest && host != "" && All(IsRepoChar, host) && Stops(IsRepoChar, rest) && ends(rest)
    requires rest != "" && rest[0] == ':' ==> NoPort(ends, rest[1..])
    ensures RepoLength(ends, r) == Some(|host|)
  {
    SpanBefore(IsRepoChar, host, rest);
    assert r[|host|..] == rest;
    var d := PortDigits(r, |host|);
    if rest != "" && rest[0] == ':' {
      assert r[|host| + 1..] == rest[1..];
      assert r[|host| + 1 + d..] == rest[1..][d..];
      assert d > 0 && |host| + 1 + d < |r| ==> r[|host| + 1 + d] == rest[1..][d..][0];
    }
    RepoFromHost(ends, r, |host|, d);
  }

  /** A tag that is not a number stops the reading of a port. */
  lemma TagStopsPort(tag: string, more: string)
    requires tag != "" && All(IsTagChar, tag) && !All(IsDigit, tag)
    ensures NoPort(CanEnd, tag + more)
  {
    var d := Span(IsDigit, tag);
    assert tag[..|tag|] == tag;
    var rest := tag[d..] + more;
    assert tag + more == tag[..d] + rest && rest[0] == tag[d];
    SpanBefore(IsDigit, tag[..d], rest);
    assert (tag + more)[d..] == rest;
    assert IsTagChar(tag[d]);
    NoSplitBelow(rest, |rest|);
  }

  /** Reading back a cut: the repository, and the flags of the suffix. */
  lemma ExtractAs(line: string, h: nat, repo: string, suffix: string, trailer: string)
    requires Head(line) == Some(h) && line[h..] == repo + (suffix + trailer)
    requires RepoLength(CanEnd, repo + (suffix + trailer)) == Some(|repo|) && Suffix(suffix + trailer) == Some(|suffix|)
    ensures Extract(line) == Some(Image(repo, suffix != "" && suffix[0] == ':', '@' in suffix))
  {
    var t := suffix + trailer;
    assert (repo + t)[|repo|..] == t && (repo + t)[..|repo|] == repo && t[..|suffix|] == suffix;
  }

  lemma EndStops(suffix: string, trailer: string)
    requires IsSuffix(suffix) && Ending(trailer)
    ensures Stops(IsRepoChar, suffix + trailer) && CanEnd(suffix + trailer)
  {
    SuffixBeforeEnding(suffix, trailer);
  }

  lemma ReadPorted(line: string, h: nat, host: string, port: string, path: string, suffix: string, trailer: string)
    requires Head(line) == Some(h) && line[h..] == (host + (":" + (port + path))) + (suffix + trailer)
    requires host != "" && All(IsRepoChar, host) && port != "" && All(IsDigit, port) && IsPath(path)
    requires IsSuffix(suffix) && Ending(trailer)
    ensures Extract(line) == Some(Image(host + (":" + (port + path)), suffix != "" && suffix[0] == ':', '@' in suffix))
  {
    EndStops(suffix, trailer);
    PortedText(host, port, path, suffix + trailer);
    ReadPortedAt(line, h, host + (":" + (port + path)), |host|, |port|, |path|, suffix, trailer);
  }

  lemma ReadPortedAt(line: string, h: nat, repo: string, n: nat, d: nat, k: nat, suffix: string, trailer: string)
    requires Head(line) == Some(h) && line[h..] == repo + (suffix + trailer)
    requires Ported(line[h..], n, d, k) && |repo| == n + 1 + d + k && IsSuffix(suffix) && Ending(trailer)
    ensures Extract(line) == Some(Image(repo, suffix != "" && suffix[0] == ':', '@' in suffix))
  {
    var r := line[h..];
    EndStops(suffix, trailer);
    assert r[|repo|..] == suffix + trailer;
    PortedRepo(CanEnd, r, n, d, k);
    SuffixBeforeEnding(suffix, trailer);
    ExtractAs(line, h, repo, suffix, trailer);
  }

  lemma ReadPlain(line: string, h: nat, host: string, suffix: string, trailer: string)
    requires Head(line) == Some(h) && line[h..] == host + (suffix + trailer)
    requires host != "" && All(IsRepoChar, host) && IsSuffix(suffix) && Ending(trailer)
    requires suffix != "" && suffix[0] == ':' ==> NoPort(CanEnd, (suffix + trailer)[1..])
    ensures Extract(line) == Some(Image(host, suffix != "" && suffix[0] == ':', '@' in suffix))
  {
    EndStops(suffix, trailer);
    PlainRepo(CanEnd, host + (suffix + trailer), host, suffix + trailer);
    SuffixBeforeEnding(suffix, trailer);
    ExtractAs(line, h, host, suffix, trailer);
  }

  lemma WrittenSuffix(w: Written)
    requires w.WellWritten()
    ensures IsSuffix(w.DigestText()) && IsSuffix(w.TagText() + w.DigestText())
    ensures '@' in w.DigestText() <==> w.digest.Some?
    ensures '@' in w.TagText() + w.DigestText() <==> w.digest.Some?
    ensures w.TagText() + w.DigestText() != "" && (w.TagText() + w.DigestText())[0] == ':' <==> w.tag.Some?
  {
    var tag, digest := w.TagText(), w.DigestText();
    assert w.digest.Some? ==> digest[1..] == w.digest.value && digest[0] == '@';
    assert w.tag.Some? ==> (tag + digest)[1..] == w.tag.value + digest;
    assert w.tag.None? ==> tag + digest == digest;
    assert '@' !in tag;
  }

  /** For every written reference, whatever its port, path, tag, digest and the end of its line: the digest
      is seen exactly if there is one, and the tag exactly if there is one and it is not a number or the
      repository has a port; otherwise a tag reads as part of the repository. */
  lemma TagIsSeen(like: string, h: nat, w: Written, trailer: string)
    requires Head(like) == Some(h) && w.WellWritten() && Ending(trailer)
    ensures Extract(like[..h] + (w.Repository() + (w.TagText() + (w.DigestText() + trailer)))) ==
              Some(Image(if w.Folds() then w.Repository() + w.TagText() else w.Repository(),
                         w.tag.Some? && (w.port.Some? || !All(IsDigit, w.tag.value)),
                         w.digest.Some?))
  {
    var rest := w.Repository() + (w.TagText() + (w.DigestText() + trailer));
    assert w.Repository()[0] == w.host[0];
    HeadStable(like, rest);
    assert (like[..h] + rest)[h..] == rest;
    TagIsSeenIn(like[..h] + rest, h, w, w.Repository(), w.TagText(), w.DigestText(), trailer);
  }

  lemma HeadOfLine(rest: string)
    requires rest != "" && !IsWs(rest[0])
    ensures Head("image: " + rest) == Some(7) && ("image: " + rest)[7..] == rest
  {
    HeadOfImage();
    assert "image: r"[..7] == "image: ";
    HeadStable("image: r", rest);
  }

  /** The tag 12 is lost on `w` ... */
  lemma NumericTagFolds(line: string, rest: string)
    requires rest == "w:12" && line == "image: " + rest
    ensures Extract(line) == Some(Image(rest, false, false))
  {
    var host, tag := "w", "12";
    assert rest == host + (":" + (tag + ""));
    FoldedExample(rest, host, tag);
  }

  /** ... and seen on `h:50/w`. */
  lemma NumericTagAfterPort(line: string, rest: string, repo: string)
    requires repo == "h:50/w" && rest == repo + ":12" && line == "image: " + rest
    ensures Extract(line) == Some(Image(repo, true, false))
  {
    var host, port, path, tag := "h", "50", "/w", ":12";
    assert repo == host + (":" + (port + path));
    assert tag[1..] == "12";
    SeenExample(rest, repo, host, port, path, tag);
  }

  lemma FoldedExample(rest: string, host: string, tag: string)
    requires host != "" && All(IsRepoChar, host) && tag != "" && All(IsDigit, tag) && rest == host + (":" + (tag + ""))
    ensures Extract("image: " + rest) == Some(Image(rest, false, false))
  {
    HeadOfLine(rest);
    assert rest == rest + ("" + "");
    ReadPorted("image: " + rest, 7, host, tag, "", "", "");
  }

  lemma SeenExample(rest: string, repo: string, host: string, port: string, path: string, tag: string)
    requires host != "" && All(IsRepoChar, host) && port != "" && All(IsDigit, port) && IsPath(path)
    requires IsSuffix(tag) && tag != "" && tag[0] == ':' && '@' !in tag
    requires repo == host + (":" + (port + path)) && rest == repo + tag
    ensures Extract("image: " + rest) == Some(Image(repo, true, false))
  {
    HeadOfLine(rest);
    assert rest == repo + (tag + "");
    ReadPorted("image: " + rest, 7, host, port, path, tag, "");
  }

  lemma TagIsSeenIn(line: string, h: nat, w: Written, repo: string, tag: string, digest: string, trailer: string)
    requires w.WellWritten() && Ending(trailer) && repo == w.Repository() && tag == w.TagText()
             && digest == w.DigestText()
    requires Head(line) == Some(h) && line[h..] == repo + (tag + (digest + trailer))
    ensures Extract(line) == Some(Image(if w.Folds() then repo + tag else repo,
                                        w.tag.Some? && (w.port.Some? || !All(IsDigit, w.tag.value)), w.digest.Some?))
  {
    WrittenSuffix(w);
    Regroup(repo, tag, digest, trailer);
    if w.Folds() {
      FoldedText(w);
      ReadPorted(line, h, w.host, w.tag.value, "", digest, trailer);
    } else if w.port.Some? {
      PortedRepository(w);
      ReadPorted(line, h, w.host, w.port.value, w.path, tag + digest, trailer);
    } else {
      PlainText(w, trailer);
      ReadPlain(line, h, w.host, tag + digest, trailer);
    }
  }

  lemma Regroup(repo: string, tag: string, digest: string, trailer: string)
    ensures repo + (tag + (digest + trailer)) == (repo + tag) + (digest + trailer)
    ensures repo + (tag + (digest + trailer)) == repo + ((tag + digest) + trailer)
  {
  }

  lemma FoldedText(w: Written)
    requires w.WellWritten() && w.Folds()
    ensures w.Repository() + w.TagText() == w.host + (":" + (w.tag.value + ""))
  {
  }

  lemma PortedRepository(w: Written)
    requires w.WellWritten() && w.port.Some?
    ensures w.Repository() == w.host + (":" + (w.port.value + w.path)) && IsPath(w.path)
  {
  }

  lemma PlainText(w: Written, trailer: string)
    requires w.WellWritten() && w.port.None? && !w.Folds()
    ensures w.Repository() == w.host
    ensures w.tag.Some? ==> NoPort(CanEnd, (w.TagText() + w.DigestText() + trailer)[1..])
  {
    if w.tag.Some? {
      assert (w.TagText() + w.DigestText() + trailer)[1..] == w.tag.value + (w.DigestText() + trailer);
      TagStopsPort(w.tag.value, w.DigestText() + trailer);
    }
  }

  lemma HeaderIsNoImage(line: string)
    requires HasPrefix(line, HEADER)
    ensures Extract(line).None?
  {
    HeaderIsComment(line, HEADER);
    CommentHasNoHead(line);
  }

  lemma HeaderIsComment(line: string, header: string)
    requires HasPrefix(line, header) && header != ""
    ensures line != "" && line[0] == header[0]
  {
    assert line[..|header|][0] == line[0];
  }

  lemma CommentHasNoHead(line: string)
    requires line != "" && line[0] == '#'
    ensures Head(line).None?
  {
    SpanIs(IsBlank, line, 0);
    assert line[0..] == line;
    assert line[..1] == "#" && IMAGE[..1] == "i";
  }

  // ---------------------------------------------------------------- the decision

  function TrimCR(l: string): string {
    if l != "" && l[|l| - 1] == '\r' then l[..|l| - 1] else l
  }

  /** The code's comparison of two lines. */
  predicate SameLine(i: nat, a: string, b: string) {
    || a == b
    || (i == 0 && HasPrefix(a, HEADER) && HasPrefix(b, HEADER))
    || (Extract(a).Some? && Extract(b).Some? && Extract(a).value == Extract(b).value)
  }

  /** What a line is as far as the decision is concerned. */
  datatype Shape = Header | Reference(image: Image) | Verbatim(line: string)

  function ShapeOf(i: nat, l: string): Shape {
    if i == 0 && HasPrefix(l, HEADER) then Header
    else match Extract(l)
      case Some(image) => Reference(image)
      case None => Verbatim(l)
  }

  lemma SameLineIsSameShape(i: nat, a: string, b: string)
    ensures SameLine(i, a, b) <==> ShapeOf(i, a) == ShapeOf(i, b)
  {
    if HasPrefix(a, HEADER) {
      HeaderIsNoImage(a);
    }
    if HasPrefix(b, HEADER) {
      HeaderIsNoImage(b);
    }
  }

  function Shapes(text: string): (r: seq<Shape>)
    ensures |r| == |Lines(text)| && forall i :: 0 <= i < |r| ==> r[i] == ShapeOf(i, TrimCR(Lines(text)[i]))
  {
    var ls := Lines(text);
    seq(|ls|, i requires 0 <= i < |ls| => ShapeOf(i, TrimCR(ls[i])))
  }

  /** The loop over the two files' lines. */
  method AllLinesSame(same: (nat, string, string) -> bool, oldLines: seq<string>, newLines: seq<string>)
    returns (all: bool)
    requires |oldLines| == |newLines|
    ensures all <==> forall i :: 0 <= i < |oldLines| ==> same(i, TrimCR(oldLines[i]), TrimCR(newLines[i]))
  {
    for i := 0 to |oldLines|
      invariant forall j :: 0 <= j < i ==> same(j, TrimCR(oldLines[j]), TrimCR(newLines[j]))
    {
      if !same(i, TrimCR(oldLines[i]), TrimCR(newLines[i])) {
        return false;
      }
    }
    return true;
  }

  /** The check accepts exactly the pairs with the same shape line by line; being an equality of
      shapes it is an equivalence relation on files. */
  method IsUpdateBoilerplateOnly(existing: string, generated: string) returns (only: bool)
    ensures only <==> Shapes(existing) == Shapes(generated)
  {
    if existing == "" && generated == "" {
      return true;
    }
    var oldLines, newLines := Lines(existing), Lines(generated);
    if |oldLines| != |newLines| {
      return false;
    }
    only := AllLinesSame(SameLine, oldLines, newLines);
    ShapesAgree(existing, generated);
  }

  lemma ShapesAgree(a: string, b: string)
    requires |Lines(a)| == |Lines(b)|
    ensures Shapes(a) == Shapes(b) <==>
              forall i :: 0 <= i < |Lines(a)| ==> SameLine(i, TrimCR(Lines(a)[i]), TrimCR(Lines(b)[i]))
  {
    forall i | 0 <= i < |Lines(a)|
      ensures Shapes(a)[i] == Shapes(b)[i] <==> SameLine(i, TrimCR(Lines(a)[i]), TrimCR(Lines(b)[i]))
    {
      SameLineIsSameShape(i, TrimCR(Lines(a)[i]), TrimCR(Lines(b)[i]));
    }
  }

  // ---------------------------------------------------------------- which lines are patched

  /** Every written reference to one of the three services is recognised by the patcher as exactly its parts. */
  lemma ReferenceIsMatched(like: string, h: nat, prefix: string, service: string, suffix: string, trailer: string)
    requires Head(like) == Some(h) && prefix != "" && !IsWs(prefix[0]) && IsService(service)
    requires IsSuffix(suffix) && Ending(trailer)
    ensures Parse(prefix, Render(prefix, Ref(like[..h], service, suffix, trailer)))
              == Some(Ref(like[..h], service, suffix, trailer))
  {
    SuffixBeforeEnding(suffix, trailer);
    ParseOfRender(prefix, like, Ref(like[..h], service, suffix, trailer));
  }

  /** A longer image name is not taken for a service: what follows the name must be a separator, a blank, a comment or
      the end of the line. */
  lemma LongerNameIsNotMatched(like: string, h: nat, prefix: string, service: string, more: string)
    requires Head(like) == Some(h) && prefix != "" && !IsWs(prefix[0]) && IsService(service)
    requires more != "" && !IsBlank(more[0]) && more[0] != '#' && !IsSep(more[0])
    ensures Parse(prefix, like[..h] + (prefix + (service + more))).None?
  {
    var rest := service + more;
    HeadStable(like, prefix + rest);
    ParseAt(prefix, like[..h], rest);
    NoSplitBelow(more, |more|);
    assert rest[|service|..] == more && rest[0] == service[0];
    assert HasPrefix(rest, "backend") ==> rest[..7][0] == rest[0];
    assert HasPrefix(rest, "web") ==> rest[..3][0] == rest[0];
    assert HasPrefix(rest, "sandbox") ==> rest[..7][0] == rest[0];
  }

  // ---------------------------------------------------------------- what is accepted

  /** Two files that differ in one line only are accepted exactly when that line's change is. */
  lemma OneLineDiffers(a: string, b: string, i: nat)
    requires |Lines(a)| == |Lines(b)| && i < |Lines(a)|
    requires forall j :: 0 <= j < |Lines(a)| && j != i ==> Lines(a)[j] == Lines(b)[j]
    ensures Shapes(a) == Shapes(b) <==> ShapeOf(i, TrimCR(Lines(a)[i])) == ShapeOf(i, TrimCR(Lines(b)[i]))
  {
    assert Shapes(a)[i] == ShapeOf(i, TrimCR(Lines(a)[i])) && Shapes(b)[i] == ShapeOf(i, TrimCR(Lines(b)[i]));
    forall j | 0 <= j < |Shapes(a)| && j != i ensures Shapes(a)[j] == Shapes(b)[j] {
      assert Lines(a)[j] == Lines(b)[j];
    }
  }

  /** The version comment may change on the first line, and only there. */
  lemma HeaderChange(i: nat, a: string, b: string)
    requires HasPrefix(a, HEADER) && HasPrefix(b, HEADER) && a != b
    ensures ShapeOf(i, a) == ShapeOf(i, b) <==> i == 0
  {
    HeaderIsNoImage(a);
    HeaderIsNoImage(b);
  }

  /** A line that is neither an image line nor the version comment may not change at all. */
  lemma OtherChange(i: nat, a: string, b: string)
    requires Extract(a).None? && !(i == 0 && HasPrefix(a, HEADER))
    ensures ShapeOf(i, a) == ShapeOf(i, b) <==> a == b
  {
  }

  /** What of a written reference is compared. */
  function Compared(w: Written): (string, bool, bool) {
    (if w.Folds() then w.Repository() + w.TagText() else w.Repository(), w.tag.Some? && !w.Folds(), w.digest.Some?)
  }

  /** A reference may change its tag, its digest, its indentation and its comment; it may not change its repository, nor
      gain or lose a tag or a digest. */
  lemma ReferenceChange(i: nat, like: string, h: nat, w: Written, trailer: string,
                        like': string, h': nat, w': Written, trailer': string)
    requires Head(like) == Some(h) && w.WellWritten() && Ending(trailer)
    requires Head(like') == Some(h') && w'.WellWritten() && Ending(trailer')
    ensures var a := like[..h] + (w.Repository() + (w.TagText() + (w.DigestText() + trailer)));
            var b := like'[..h'] + (w'.Repository() + (w'.TagText() + (w'.DigestText() + trailer')));
            ShapeOf(i, a) == ShapeOf(i, b) <==> Compared(w) == Compared(w')
  {
    var a := like[..h] + (w.Repository() + (w.TagText() + (w.DigestText() + trailer)));
    var b := like'[..h'] + (w'.Repository() + (w'.TagText() + (w'.DigestText() + trailer')));
    TagIsSeen(like, h, w, trailer);
    TagIsSeen(like', h', w', trailer');
    ImageIsNoHeader(i, a);
    ImageIsNoHeader(i, b);
  }

  lemma ImageIsNoHeader(i: nat, line: string)
    requires Extract(line).Some?
    ensures ShapeOf(i, line) == Reference(Extract(line).value)
  {
    if HasPrefix(line, HEADER) {
      HeaderIsNoImage(line);
    }
  }

  // ---------------------------------------------------------------- chains

  /** The repository, tag and digest flags of every line. */
  function Images(text: string): (r: seq<Option<Image>>)
    ensures |r| == |Lines(text)| && forall i :: 0 <= i < |r| ==> r[i] == Extract(TrimCR(Lines(text)[i]))
  {
    var ls := Lines(text);
    seq(|ls|, i requires 0 <= i < |ls| => Extract(TrimCR(ls[i])))
  }

  lemma ShapesDecideImages(a: string, b: string)
    requires Shapes(a) == Shapes(b)
    ensures Images(a) == Images(b)
  {
    forall i | 0 <= i < |Images(a)| ensures Images(a)[i] == Images(b)[i] {
      ShapeDecidesImage(i, TrimCR(Lines(a)[i]), TrimCR(Lines(b)[i]));
      assert Shapes(a)[i] == Shapes(b)[i];
    }
  }

  lemma ShapeDecidesImage(i: nat, a: string, b: string)
    ensures ShapeOf(i, a) == ShapeOf(i, b) ==> Extract(a) == Extract(b)
  {
    if HasPrefix(a, HEADER) {
      HeaderIsNoImage(a);
    }
    if HasPrefix(b, HEADER) {
      HeaderIsNoImage(b);
    }
  }

  /** No chain of auto-applied regenerations changes the repository of any line, or whether it
      carries a tag or a digest; and the chain's ends would themselves be auto-applied. */
  lemma {:induction false} AutoAppliedChain(files: seq<string>)
    requires |files| >= 1
    requires forall k :: 1 <= k < |files| ==> Shapes(files[k - 1]) == Shapes(files[k])
    ensures Shapes(files[0]) == Shapes(files[|files| - 1])
    ensures Images(files[0]) == Images(files[|files| - 1])
  {
    if |files| > 1 {
      AutoAppliedChain(files[..|files| - 1]);
    }
    ShapesDecideImages(files[0], files[|files| - 1]);
  }
}
