/**
 Patching on text and patching on references are the same operation: what patchComposeImageRefs does to
 the lines of a file (cli/cmd/update_compose.go) is what PatchRefs does to the references they show.
 */
module PatchRefines {

  import opened Text
  import I = ImageLines
  import opened ComposeParams
  import opened PinTrust

  /** images.RepoPrefix. */
  function PrefixOf(id: Identity): string { id.registryHost + "/" + id.repoPrefix }

  function SuffixText(r: Ref): string { if r.digest != "" then "@" + r.digest else ":" + r.tag }

  /** A reference as its line shows it: service and suffix, in the repository of the identity. */
  predicate ShownBy(id: Identity, c: ComposeFile, p: I.Ref) {
    && (p.service == "backend" || p.service == "web") && p.service in c.synthorg
    && c.synthorg[p.service].repo == RepoOf(id, p.service) && p.suffix == SuffixText(c.synthorg[p.service])
  }

  predicate HasLine(id: Identity, lines: seq<string>, service: string) {
    I.HasService(I.MatcherFor(PrefixOf(id)), lines, service)
  }

  /** The image lines of the text are the backend and web references of the file in that repository. */
  ghost predicate Shows(id: Identity, lines: seq<string>, c: ComposeFile) {
    && (forall i :: 0 <= i < |lines| ==>
          var p := I.Parse(PrefixOf(id), lines[i]); p.Some? ==> ShownBy(id, c, p.value))
    && ("backend" in c.synthorg && c.synthorg["backend"].repo == RepoOf(id, "backend") ==>
          HasLine(id, lines, "backend"))
    && ("web" in c.synthorg && c.synthorg["web"].repo == RepoOf(id, "web") ==> HasLine(id, lines, "web"))
  }

  lemma ShownIsNotSticky(id: Identity, c: ComposeFile, line: string)
    requires I.Parse(PrefixOf(id), line).Some? ==> ShownBy(id, c, I.Parse(PrefixOf(id), line).value)
    ensures !I.Sticky(PrefixOf(id), line)
  {
  }

  lemma SameSuffix(id: Identity, tag: string, pins: map<string, string>, service: string)
    ensures I.NewSuffix(tag, pins, service) == SuffixText(PatchedRef(id, tag, pins, service))
  {
  }

  /** A service has a line exactly when the file refers to it in that repository. */
  lemma HasLineMeans(id: Identity, lines: seq<string>, c: ComposeFile, service: string)
    requires Shows(id, lines, c) && (service == "backend" || service == "web")
    ensures HasLine(id, lines, service) <==> service in c.synthorg && c.synthorg[service].repo == RepoOf(id, service)
  {
    if HasLine(id, lines, service) {
      var m := I.MatcherFor(PrefixOf(id));
      var i :| 0 <= i < |lines| && m(lines[i]).Some? && m(lines[i]).value.service == service;
      assert I.Parse(PrefixOf(id), lines[i]) == m(lines[i]);
    }
  }

  /** What a patched line shows. */
  lemma PatchedShown(id: Identity, c: ComposeFile, tag: string, pins: map<string, string>, p: I.Ref)
    requires ShownBy(id, c, p)
    ensures ShownBy(id, PatchRefs(id, c, tag, pins), p.(suffix := I.NewSuffix(tag, pins, p.service)))
  {
    SameSuffix(id, tag, pins, p.service);
  }

  lemma LineAfter(id: Identity, text: string, c: ComposeFile, tag: string, pins: map<string, string>, i: nat)
    requires Shows(id, Lines(text), c) && I.Plain(PrefixOf(id), tag, pins) && i < |Lines(text)|
    requires I.Patch(PrefixOf(id), tag, pins, false, text).Patched?
    ensures var after := Lines(I.Patch(PrefixOf(id), tag, pins, false, text).text);
            |after| == |Lines(text)|
            && var p, q := I.Parse(PrefixOf(id), Lines(text)[i]), I.Parse(PrefixOf(id), after[i]);
               p.Some? == q.Some?
               && (q.Some? ==> ShownBy(id, PatchRefs(id, c, tag, pins), q.value) && q.value.service == p.value.service)
  {
    var p := I.Parse(PrefixOf(id), Lines(text)[i]);
    ShownIsNotSticky(id, c, Lines(text)[i]);
    I.PatchChangesOnlyReferences(PrefixOf(id), tag, pins, false, text, i);
    if p.Some? {
      PatchedShown(id, c, tag, pins, p.value);
    }
  }

  lemma LineStays(id: Identity, before: seq<string>, after: seq<string>, service: string)
    requires |before| == |after| && HasLine(id, before, service)
    requires forall i :: 0 <= i < |before| ==>
               var p, q := I.Parse(PrefixOf(id), before[i]), I.Parse(PrefixOf(id), after[i]);
               p.Some? ==> q.Some? && q.value.service == p.value.service
    ensures HasLine(id, after, service)
  {
    var m := I.MatcherFor(PrefixOf(id));
    var i :| 0 <= i < |before| && m(before[i]).Some? && m(before[i]).value.service == service;
    assert m(before[i]) == I.Parse(PrefixOf(id), before[i]) && m(after[i]) == I.Parse(PrefixOf(id), after[i]);
  }

  /** For every file and the references it shows: patching the text succeeds exactly when the references can
      be patched, and the patched text shows exactly the patched references.  With PatchTrusted, every
      digest on a line of the patched text was verified for its repository and tag. */
  lemma PatchOnTextIsPatchOnRefs(id: Identity, text: string, c: ComposeFile, tag: string, pins: map<string, string>)
    requires Shows(id, Lines(text), c) && I.Plain(PrefixOf(id), tag, pins)
    ensures I.Patch(PrefixOf(id), tag, pins, false, text).Patched? <==> Patchable(id, c)
    ensures I.Patch(PrefixOf(id), tag, pins, false, text).Patched? ==>
              Shows(id, Lines(I.Patch(PrefixOf(id), tag, pins, false, text).text), PatchRefs(id, c, tag, pins))
  {
    PatchableMeans(id, text, c, tag, pins);
    if I.Patch(PrefixOf(id), tag, pins, false, text).Patched? {
      PatchedTextShows(id, text, c, tag, pins);
    }
  }

  /** With the sandbox on it never succeeds: such a file shows no sandbox line. */
  lemma SandboxBlocksPatch(id: Identity, text: string, c: ComposeFile, tag: string, pins: map<string, string>)
    requires Shows(id, Lines(text), c)
    ensures !I.Patch(PrefixOf(id), tag, pins, true, text).Patched?
  {
    I.SandboxNeedsItsLine(PrefixOf(id), tag, pins, text);
  }

  lemma PatchableMeans(id: Identity, text: string, c: ComposeFile, tag: string, pins: map<string, string>)
    requires Shows(id, Lines(text), c)
    ensures I.Patch(PrefixOf(id), tag, pins, false, text).Patched? <==> Patchable(id, c)
    ensures Patchable(id, c) ==> HasLine(id, Lines(text), "backend") && HasLine(id, Lines(text), "web")
  {
    HasLineMeans(id, Lines(text), c, "backend");
    HasLineMeans(id, Lines(text), c, "web");
    I.PatchSucceeds(I.MatcherFor(PrefixOf(id)), I.ReplacerFor(PrefixOf(id), tag, pins), false, text);
    assert I.Required(false, "backend") && I.Required(false, "web");
  }

  lemma PatchedTextShows(id: Identity, text: string, c: ComposeFile, tag: string, pins: map<string, string>)
    requires Shows(id, Lines(text), c) && I.Plain(PrefixOf(id), tag, pins)
    requires I.Patch(PrefixOf(id), tag, pins, false, text).Patched?
    ensures Shows(id, Lines(I.Patch(PrefixOf(id), tag, pins, false, text).text), PatchRefs(id, c, tag, pins))
  {
    var before, after := Lines(text), Lines(I.Patch(PrefixOf(id), tag, pins, false, text).text);
    var d := PatchRefs(id, c, tag, pins);
    PatchableMeans(id, text, c, tag, pins);
    LineAfter(id, text, c, tag, pins, 0);
    forall i | 0 <= i < |before|
      ensures var p, q := I.Parse(PrefixOf(id), before[i]), I.Parse(PrefixOf(id), after[i]);
              p.Some? == q.Some? && (q.Some? ==> ShownBy(id, d, q.value) && q.value.service == p.value.service)
    {
      LineAfter(id, text, c, tag, pins, i);
    }
    LineStays(id, before, after, "backend");
    LineStays(id, before, after, "web");
  }
}
