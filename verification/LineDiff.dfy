/**
 The diff shown before a changed compose file is applied (lineDiff in
 cli/cmd/update_compose.go), before secrets are redacted for display.
 */
module LineDiff {

  import opened Text

  /** A Go `map[string]int` read with its zero default. */
  function Count(m: map<string, nat>, l: string): nat {
    if l in m then m[l] else 0
  }

  ghost predicate Counts(m: map<string, nat>, bag: multiset<string>) {
    forall l :: Count(m, l) == bag[l]
  }

  /** `part` is `whole` with some elements left out. */
  predicate IsSubsequence(part: seq<string>, whole: seq<string>) {
    if part == [] then true
    else if whole == [] then false
    else
      || (part[|part| - 1] == whole[|whole| - 1] && IsSubsequence(part[..|part| - 1], whole[..|whole| - 1]))
      || IsSubsequence(part, whole[..|whole| - 1])
  }

  method CountLines(lines: seq<string>) returns (m: map<string, nat>)
    ensures Counts(m, multiset(lines))
  {
    m := map[];
    for i := 0 to |lines|
      invariant Counts(m, multiset(lines[..i]))
    {
      assert lines[..i + 1] == lines[..i] + [lines[i]];
      m := m[lines[i] := Count(m, lines[i]) + 1];
    }
    assert lines[..|lines|] == lines;
  }

  lemma TakeOne(a: multiset<string>, bag: multiset<string>, l: string)
    ensures (a + multiset{l}) - bag == if (bag - a)[l] > 0 then a - bag else (a - bag) + multiset{l}
    ensures (bag - (a + multiset{l})) == (bag - a) - multiset{l}
  {
  }

  lemma CountsMinus(m: map<string, nat>, bag: multiset<string>, l: string)
    requires Counts(m, bag)
    ensures Counts(Take(m, l), bag - multiset{l})
  {
    assert Count(m, l) == bag[l];
  }

  lemma SubsequenceStep(part: seq<string>, whole: seq<string>, l: string)
    requires IsSubsequence(part, whole)
    ensures IsSubsequence(part, whole + [l]) && IsSubsequence(part + [l], whole + [l])
  {
    assert (whole + [l])[..|whole|] == whole && (part + [l])[..|part|] == part;
  }

  function Take(m: map<string, nat>, l: string): map<string, nat> {
    if Count(m, l) > 0 then m[l := Count(m, l) - 1] else m
  }

  /** The counts left, and the lines put out, after a pass over `done`. */
  function Left(done: seq<string>, other: map<string, nat>): map<string, nat> {
    if done == [] then other else Take(Left(done[..|done| - 1], other), done[|done| - 1])
  }

  function Sifted(done: seq<string>, other: map<string, nat>): seq<string> {
    if done == [] then []
    else
      var before, l := done[..|done| - 1], done[|done| - 1];
      if Count(Left(before, other), l) > 0 then Sifted(before, other) else Sifted(before, other) + [l]
  }

  /** The lines put out come in the order of the file. */
  lemma {:induction false} SiftedInOrder(done: seq<string>, other: map<string, nat>)
    ensures IsSubsequence(Sifted(done, other), done)
  {
    if done != [] {
      var before, l := done[..|done| - 1], done[|done| - 1];
      SiftedInOrder(before, other);
      SubsequenceStep(Sifted(before, other), before, l);
      assert done == before + [l];
    }
  }

  lemma {:induction false} LeftCounts(done: seq<string>, other: map<string, nat>, bag: multiset<string>)
    requires Counts(other, bag)
    ensures Counts(Left(done, other), bag - multiset(done))
  {
    if done == [] {
      assert bag - multiset(done) == bag;
    } else {
      var before, l := done[..|done| - 1], done[|done| - 1];
      LeftCounts(before, other, bag);
      CountsMinus(Left(before, other), bag - multiset(before), l);
      assert done == before + [l];
      assert bag - multiset(done) == bag - multiset(before) - multiset{l};
    }
  }

  /** What is put out is what the file has more of than the other. */
  lemma {:induction false} SiftedBag(done: seq<string>, other: map<string, nat>, bag: multiset<string>)
    requires Counts(other, bag)
    ensures multiset(Sifted(done, other)) == multiset(done) - bag
  {
    if done != [] {
      var before, l := done[..|done| - 1], done[|done| - 1];
      SiftedBag(before, other, bag);
      LeftCounts(before, other, bag);
      assert Count(Left(before, other), l) == (bag - multiset(before))[l];
      assert done == before + [l];
      TakeOne(multiset(before), bag, l);
    }
  }

  method Sift(lines: seq<string>, other: map<string, nat>) returns (out: seq<string>)
    ensures out == Sifted(lines, other)
  {
    var left: map<string, nat> := other;
    out := [];
    for i := 0 to |lines|
      invariant out == Sifted(lines[..i], other) && left == Left(lines[..i], other)
    {
      var l := lines[i];
      assert lines[..i + 1][..i] == lines[..i];
      if Count(left, l) > 0 {
        left := left[l := Count(left, l) - 1];
      } else {
        out := out + [l];
      }
    }
    assert lines[..|lines|] == lines;
  }

  /** One of the two passes: the lines of a file not matched by the other file's counts. */
  method Unmatched(lines: seq<string>, other: map<string, nat>, ghost bag: multiset<string>) returns (out: seq<string>)
    requires Counts(other, bag)
    ensures multiset(out) == multiset(lines) - bag
    ensures IsSubsequence(out, lines)
  {
    out := Sift(lines, other);
    SiftedBag(lines, other, bag);
    SiftedInOrder(lines, other);
  }

  /** The diff removes exactly what the old file has more of and adds exactly what the new one has
      more of, each side in the order of its file. */
  method LineDiff(oldText: string, updated: string) returns (removed: seq<string>, added: seq<string>)
    ensures multiset(removed) == multiset(Lines(oldText)) - multiset(Lines(updated))
    ensures multiset(added) == multiset(Lines(updated)) - multiset(Lines(oldText))
    ensures IsSubsequence(removed, Lines(oldText)) && IsSubsequence(added, Lines(updated))
    ensures multiset(Lines(oldText)) - multiset(removed) + multiset(added) == multiset(Lines(updated))
    ensures removed == [] && added == [] <==> multiset(Lines(oldText)) == multiset(Lines(updated))
  {
    var oldLines, newLines := Lines(oldText), Lines(updated);
    var newSet := CountLines(newLines);
    var oldSet := CountLines(oldLines);
    removed := Unmatched(oldLines, newSet, multiset(newLines));
    added := Unmatched(newLines, oldSet, multiset(oldLines));
    DiffIsExact(multiset(oldLines), multiset(newLines));
    EmptyBag(removed);
    EmptyBag(added);
  }

  lemma EmptyBag(s: seq<string>)
    ensures s == [] <==> multiset(s) == multiset{}
  {
    assert s != [] ==> s[0] in multiset(s);
  }

  /** Taking away what is too much and adding what is missing turns one bag into the other. */
  lemma DiffIsExact(a: multiset<string>, b: multiset<string>)
    ensures a - (a - b) + (b - a) == b
    ensures a - b == multiset{} && b - a == multiset{} <==> a == b
  {
    if a - b == multiset{} && b - a == multiset{} {
      forall l ensures a[l] == b[l] {
        assert (a - b)[l] == 0 && (b - a)[l] == 0;
      }
    }
  }
}
