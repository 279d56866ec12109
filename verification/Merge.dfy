/** Merging the official tests into the candidate tree in place, `_merge_official_tests` of
    src/claim_plane/oss_pilot.py. `git merge-file` is an arbitrary partial function. */
module Merge {
  import opened Wrappers

  type Bytes = seq<bv8>

  /** A work tree as its regular files. */
  type Files = map<string, Bytes>

  function Get(files: Files, path: string): Option<Bytes> { if path in files then Some(files[path]) else None }

  function Set(files: Files, path: string, content: Option<Bytes>): Files {
    if content.Some? then files[path := content.value] else files - {path}
  }

  datatype Merged = Clean(content: Option<Bytes>) | Conflict

  predicate IsBinary(content: Bytes) { 0 in content }

  /** Three-way merge of one path: a side that did not change gives way to the other, equal
      changes agree, and two different text changes are left to the line merge. */
  function ThreeWay(base: Option<Bytes>, candidate: Option<Bytes>, official: Option<Bytes>,
                    lineMerge: (Bytes, Bytes, Bytes) -> Option<Bytes>): Merged
  {
    if official == base || candidate == official then Clean(candidate)
    else if candidate == base then Clean(official)
    else if base.None? || candidate.None? || official.None? then Conflict
    else if IsBinary(base.value) || IsBinary(candidate.value) || IsBinary(official.value) then Conflict
    else
      match lineMerge(candidate.value, base.value, official.value)
      case None => Conflict
      case Some(text) => Clean(Some(text))
  }

  /** The three versions of a path. */
  function MergeOf(base: Files, candidate: Files, official: Files, lineMerge: (Bytes, Bytes, Bytes) -> Option<Bytes>,
                   path: string): Merged
  {
    ThreeWay(Get(base, path), Get(candidate, path), Get(official, path), lineMerge)
  }

  /** The tree after the first n paths were merged: these hold their merge, all others what
      they held before. */
  ghost predicate MergedUpTo(files: Files, before: Files, base: Files, official: Files,
                             lineMerge: (Bytes, Bytes, Bytes) -> Option<Bytes>, paths: seq<string>, n: nat)
    requires n <= |paths|
  {
    && (forall i :: 0 <= i < n ==> MergeOf(base, before, official, lineMerge, paths[i]) == Clean(Get(files, paths[i])))
    && forall p :: (forall i :: 0 <= i < n ==> paths[i] != p) ==> Get(files, p) == Get(before, p)
  }

  lemma MergeNext(files: Files, before: Files, base: Files, official: Files,
                  lineMerge: (Bytes, Bytes, Bytes) -> Option<Bytes>,
                  paths: seq<string>, n: nat, content: Option<Bytes>)
    requires n < |paths| && forall i, j :: 0 <= i < j < |paths| ==> paths[i] != paths[j]
    requires MergedUpTo(files, before, base, official, lineMerge, paths, n)
    requires MergeOf(base, before, official, lineMerge, paths[n]) == Clean(content)
    ensures MergedUpTo(Set(files, paths[n], content), before, base, official, lineMerge, paths, n + 1)
  {
    hide ThreeWay;
    var files' := Set(files, paths[n], content);
    forall p ensures Get(files', p) == if p == paths[n] then content else Get(files, p) {
    }
  }

  class Tree {
    var files: Files

    constructor (initial: Files)
      ensures files == initial
    {
      files := initial;
    }

    /** One turn of the loop: the branches of the source in their order. */
    method MergePath(base: Files, official: Files, relative: string, lineMerge: (Bytes, Bytes, Bytes) -> Option<Bytes>)
      returns (ok: bool)
      modifies this
      ensures var merged := MergeOf(base, old(files), official, lineMerge, relative);
              && (ok <==> merged.Clean?)
              && files == if ok then Set(old(files), relative, merged.content) else old(files)
    {
      var b, c, o := Get(base, relative), Get(files, relative), Get(official, relative);
      assert Set(files, relative, c) == files;
      if c == o { return true; }
      if o == b { return true; }
      if c == b {
        files := if o.None? then files - {relative} else files[relative := o.value];
        return true;
      }
      if b.None? {
        // A path new on both sides: with no candidate it was taken over just above.
        assert c.Some?;
        return false;
      }
      if c.None? || o.None? { return false; }
      if IsBinary(b.value) || IsBinary(c.value) || IsBinary(o.value) { return false; }
      var text := lineMerge(c.value, b.value, o.value);
      if text.None? { return false; }
      files := files[relative := text.value];
      ok := true;
    }

    /** The official paths come without repetition. On success every official path holds its
        three-way merge and no other path changed; a failure names the first path that
        conflicts, and the paths before it are already merged. */
    method MergeOfficialTests(base: Files, official: Files, paths: seq<string>,
                              lineMerge: (Bytes, Bytes, Bytes) -> Option<Bytes>)
      returns (ok: bool, conflict: string)
      requires forall i, j :: 0 <= i < j < |paths| ==> paths[i] != paths[j]
      modifies this
      ensures ok ==> MergedUpTo(files, old(files), base, official, lineMerge, paths, |paths|)
      ensures !ok ==> exists n ::
                && 0 <= n < |paths| && paths[n] == conflict
                && MergeOf(base, old(files), official, lineMerge, conflict) == Conflict
                && MergedUpTo(files, old(files), base, official, lineMerge, paths, n)
    {
      ghost var before := files;
      for n := 0 to |paths|
        invariant MergedUpTo(files, before, base, official, lineMerge, paths, n)
      {
        ghost var now := files;
        SameThere(now, before, base, official, lineMerge, paths, n);
        var clean := MergePath(base, official, paths[n], lineMerge);
        if !clean { return false, paths[n]; }
        MergeNext(now, before, base, official, lineMerge, paths, n,
                  MergeOf(base, now, official, lineMerge, paths[n]).content);
      }
      return true, "";
    }
  }

  lemma SameThere(files: Files, before: Files, base: Files, official: Files,
                  lineMerge: (Bytes, Bytes, Bytes) -> Option<Bytes>,
                  paths: seq<string>, n: nat)
    requires n < |paths| && forall i, j :: 0 <= i < j < |paths| ==> paths[i] != paths[j]
    requires MergedUpTo(files, before, base, official, lineMerge, paths, n)
    ensures MergeOf(base, files, official, lineMerge, paths[n]) == MergeOf(base, before, official, lineMerge, paths[n])
  {
  }

  // ----- what the merged tree looks like -----

  /** The outcome is fixed: two trees that both hold the merge are the same tree. */
  lemma MergeIsUnique(a: Files, b: Files, before: Files, base: Files, official: Files,
                      lineMerge: (Bytes, Bytes, Bytes) -> Option<Bytes>, paths: seq<string>)
    requires MergedUpTo(a, before, base, official, lineMerge, paths, |paths|)
    requires MergedUpTo(b, before, base, official, lineMerge, paths, |paths|)
    ensures a == b
  {
    forall p ensures Get(a, p) == Get(b, p) {
      if i :| 0 <= i < |paths| && paths[i] == p {
        assert MergeOf(base, before, official, lineMerge, paths[i]) == Clean(Get(a, p));
        assert MergeOf(base, before, official, lineMerge, paths[i]) == Clean(Get(b, p));
      }
    }
    SameFiles(a, b);
  }

  lemma SameFiles(a: Files, b: Files)
    requires forall p :: Get(a, p) == Get(b, p)
    ensures a == b
  {
    forall p ensures p in a <==> p in b { assert Get(a, p) == Get(b, p); }
    forall p | p in a ensures a[p] == b[p] { assert Get(a, p) == Get(b, p); }
  }

  /** Where the official tests changed nothing the candidate stays; where the candidate changed
      nothing the official content, or its absence, is what remains. */
  lemma UntouchedSidesGiveWay(files: Files, before: Files, base: Files, official: Files,
                              lineMerge: (Bytes, Bytes, Bytes) -> Option<Bytes>, paths: seq<string>, p: string)
    requires MergedUpTo(files, before, base, official, lineMerge, paths, |paths|)
    ensures Get(official, p) == Get(base, p) ==> Get(files, p) == Get(before, p)
    ensures p in paths && Get(before, p) == Get(base, p) ==> Get(files, p) == Get(official, p)
    ensures p in paths && Get(before, p) == Get(official, p) ==> Get(files, p) == Get(official, p)
    ensures p !in paths ==> Get(files, p) == Get(before, p)
  {
    if p in paths {
      var i :| 0 <= i < |paths| && paths[i] == p;
      assert MergeOf(base, before, official, lineMerge, paths[i]) == Clean(Get(files, p));
    }
  }

  /** If the official tree is the base, merging changes nothing at all. */
  lemma MergingTheBaseIsIdentity(files: Files, before: Files, base: Files,
                                 lineMerge: (Bytes, Bytes, Bytes) -> Option<Bytes>, paths: seq<string>)
    requires MergedUpTo(files, before, base, base, lineMerge, paths, |paths|)
    ensures files == before
  {
    forall p ensures Get(files, p) == Get(before, p) {
      UntouchedSidesGiveWay(files, before, base, base, lineMerge, paths, p);
    }
    SameFiles(files, before);
  }

  /** An untouched candidate receives the official tests whole: when the paths list every
      difference between base and official tree, the result is the official tree. */
  lemma UntouchedCandidateBecomesOfficial(files: Files, base: Files, official: Files,
                                          lineMerge: (Bytes, Bytes, Bytes) -> Option<Bytes>, paths: seq<string>)
    requires MergedUpTo(files, base, base, official, lineMerge, paths, |paths|)
    requires forall p :: Get(official, p) != Get(base, p) ==> p in paths
    ensures files == official
  {
    forall p ensures Get(files, p) == Get(official, p) {
      UntouchedSidesGiveWay(files, base, base, official, lineMerge, paths, p);
    }
    SameFiles(files, official);
  }
}
