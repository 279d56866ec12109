/** `canonical_repository_path` of src/claim_plane/determinism.py, down to `posixpath.normpath`.
    Unicode normalisation is any function. */
module Paths {
  import opened Wrappers
  import opened Json
  import opened ConfigText

  type Compose = string -> string

  // ----- text -----

  /** `str.replace("\\", "/")` */
  function Slashed(s: string): (r: string)
    ensures |r| == |s| && forall i :: 0 <= i < |s| ==> r[i] == if s[i] == '\\' then '/' else s[i]
  {
    seq(|s|, i requires 0 <= i < |s| => if s[i] == '\\' then '/' else s[i])
  }

  function DropDots(s: string): (r: string)
    ensures |r| <= |s|
  {
    if StartsWith(s, "./") then DropDots(s[2..]) else s
  }

  /** `str.split("/")` */
  function Split(s: string): (r: seq<string>)
    ensures r != []
  {
    if s == "" then [""]
    else if s[0] == '/' then [""] + Split(s[1..])
    else
      var rest := Split(s[1..]);
      [[s[0]] + rest[0]] + rest[1..]
  }

  /** `"/".join(parts)` */
  function JoinParts(parts: seq<string>): string {
    if parts == [] then "" else if |parts| == 1 then parts[0] else parts[0] + "/" + JoinParts(parts[1..])
  }

  // ----- normpath -----

  /** The loop over the components, `done` being the ones kept so far. */
  function Components(parts: seq<string>, done: seq<string>, absolute: bool): seq<string> {
    if parts == [] then done
    else
      var p, rest := parts[0], parts[1..];
      if p == "" || p == "." then Components(rest, done, absolute)
      else if p != ".." || (!absolute && done == []) || (done != [] && done[|done| - 1] == "..")
      then Components(rest, done + [p], absolute)
      else Components(rest, if done == [] then [] else done[..|done| - 1], absolute)
  }

  function NormPath(s: string): string {
    var absolute := StartsWith(s, "/");
    var slashes := if !absolute then "" else if StartsWith(s, "//") && !StartsWith(s, "///") then "//" else "/";
    var path := slashes + JoinParts(Components(Split(s), [], absolute));
    if path == "" then "." else path
  }

  // ----- the operation -----

  /** `[A-Za-z]:/` */
  predicate HasDrive(s: string) { |s| >= 3 && IsKeyStart(s[0]) && s[1] == ':' && s[2] == '/' }

  predicate Refused(clean: string) {
    clean == "" || clean == "." || clean == ".." || StartsWith(clean, "../") || StartsWith(clean, "/")
        || HasDrive(clean)
  }

  /** The text that is normalised. */
  function Prepared(compose: Compose, value: string): string { DropDots(Slashed(compose(Strip(value)))) }

  function Canonical(compose: Compose, value: string): Option<string> {
    var clean := NormPath(Prepared(compose, value));
    if Refused(clean) then None else Some(clean)
  }

  /** `canonical_repository_path`; None for the ValueError. */
  method CanonicalRepositoryPath(compose: Compose, value: string) returns (r: Option<string>)
    ensures r == Canonical(compose, value)
    ensures !StartsWith(Prepared(compose, value), "/") ==> r == Denoted(Prepared(compose, value))
    ensures StartsWith(Prepared(compose, value), "/") ==> r == None
  {
    hide NormPath, Refused, Denoted, StartsWith, Strip;
    var normalized := Slashed(compose(Strip(value)));
    while StartsWith(normalized, "./")
      invariant DropDots(normalized) == Prepared(compose, value)
      decreases |normalized|
    {
      LongEnough(normalized, "./");
      normalized := normalized[2..];
    }
    CanonicalIsDenoted(compose, value);
    var clean := NormPath(normalized);
    r := if Refused(clean) then None else Some(clean);
  }

  lemma LongEnough(s: string, prefix: string)
    requires StartsWith(s, prefix)
    ensures |s| >= |prefix|
  {
  }

  // ----- where a path leads -----

  /** Walking from the root of the project: None once the walk leaves it. */
  function Walk(parts: seq<string>, at: seq<string>): Option<seq<string>> {
    if parts == [] then Some(at)
    else if parts[0] == "" || parts[0] == "." then Walk(parts[1..], at)
    else if parts[0] != ".." then Walk(parts[1..], at + [parts[0]])
    else if at == [] then None
    else Walk(parts[1..], at[..|at| - 1])
  }

  /** The place a relative path leads to, written out: nothing for one that leaves the project on its
      way, ends at its root, or reads as a drive. */
  function Denoted(path: string): Option<string> {
    match Walk(Split(path), [])
    case None => None
    case Some(names) => if names == [] || HasDrive(JoinParts(names)) then None else Some(JoinParts(names))
  }

  /** A proper name between two slashes. */
  predicate IsName(s: string) {
    s != "" && s != "." && s != ".." && forall i :: 0 <= i < |s| ==> s[i] != '/' && s[i] != '\\'
  }

  predicate Names(parts: seq<string>) { forall i :: 0 <= i < |parts| ==> IsName(parts[i]) }

  predicate NoSlash(s: string) { forall i :: 0 <= i < |s| ==> s[i] != '/' && s[i] != '\\' }

  predicate Parts(parts: seq<string>) { forall i :: 0 <= i < |parts| ==> NoSlash(parts[i]) }

  lemma {:induction false} SplitParts(s: string)
    requires forall i :: 0 <= i < |s| ==> s[i] != '\\'
    ensures Parts(Split(s))
  {
    if s != "" { SplitParts(s[1..]); }
  }

  lemma {:induction false} WalkNames(parts: seq<string>, at: seq<string>)
    requires Parts(parts) && Names(at)
    ensures Walk(parts, at).Some? ==> Names(Walk(parts, at).value)
  {
    if parts != [] {
      var p, rest := parts[0], parts[1..];
      if p == "" || p == "." { WalkNames(rest, at); }
      else if p != ".." { WalkNames(rest, at + [p]); }
      else if at != [] { WalkNames(rest, at[..|at| - 1]); }
    }
  }

  /** Inside the project the components are where the walk is; once outside, `..` stays in front. */
  lemma {:induction false} ComponentsWalk(parts: seq<string>, at: seq<string>)
    requires Names(at)
    ensures match Walk(parts, at)
            case Some(names) => Components(parts, at, false) == names
            case None => Components(parts, at, false) != [] && Components(parts, at, false)[0] == ".."
    requires Parts(parts)
  {
    if parts != [] {
      var p, rest := parts[0], parts[1..];
      if p == "" || p == "." { ComponentsWalk(rest, at); }
      else if p != ".." { ComponentsWalk(rest, at + [p]); }
      else if at != [] { ComponentsWalk(rest, at[..|at| - 1]); }
      else {
        Outside(rest, [".."]);
        assert [] + [".."] == [".."];
      }
    }
  }

  lemma {:induction false} Outside(parts: seq<string>, done: seq<string>)
    requires done != [] && done[0] == ".."
    ensures Components(parts, done, false) != [] && Components(parts, done, false)[0] == ".."
  {
    if parts != [] {
      var p, rest := parts[0], parts[1..];
      if p == "" || p == "." { Outside(rest, done); }
      else if p != ".." || done[|done| - 1] == ".." { Outside(rest, done + [p]); }
      else { Outside(rest, done[..|done| - 1]); }
    }
  }

  lemma JoinStart(parts: seq<string>)
    requires parts != []
    ensures parts[0] <= JoinParts(parts)
    ensures JoinParts(parts) == parts[0]
        || (|parts| > 1 && |JoinParts(parts)| > |parts[0]| && JoinParts(parts)[|parts[0]|] == '/')
  {
  }

  /** The code's test on the text is the test on the place. */
  lemma NormalIsDenoted(path: string)
    requires !StartsWith(path, "/") && forall i :: 0 <= i < |path| ==> path[i] != '\\'
    ensures Denoted(path) == if Refused(NormPath(path)) then None else Some(NormPath(path))
  {
    hide Walk, Components, Split, JoinParts;
    SplitParts(path);
    ComponentsWalk(Split(path), []);
    WalkNames(Split(path), []);
    var parts := Components(Split(path), [], false);
    assert "" + JoinParts(parts) == JoinParts(parts);
    if parts == [] {
      JoinNothing();
    } else {
      JoinStart(parts);
      if Walk(Split(path), []).Some? {
        NameStarts(parts);
      } else {
        assert JoinParts(parts)[..2] == "..";
      }
    }
  }

  lemma JoinNothing()
    ensures JoinParts([]) == ""
  {
  }

  lemma NameStarts(names: seq<string>)
    requires names != [] && Names(names)
    ensures var p := JoinParts(names);
            p != "" && p != "." && p != ".." && !StartsWith(p, "../") && !StartsWith(p, "/") && !StartsWith(p, "./")
  {
    hide JoinParts;
    var p, name := JoinParts(names), names[0];
    JoinStart(names);
    assert IsName(name);
    assert p[0] == name[0];
    assert |name| == 1 ==> name == [name[0]];
    assert |name| == 2 ==> name == [name[0], name[1]];
    assert forall i :: 0 <= i < |name| ==> p[i] == name[i];
    assert |p| >= 3 ==> p[..3][0] == p[0] && p[..3][1] == p[1] && p[..3][2] == p[2];
    assert |p| >= 2 ==> p[..2][0] == p[0] && p[..2][1] == p[1];
  }

  lemma AbsoluteIsRefused(path: string)
    requires StartsWith(path, "/")
    ensures Refused(NormPath(path))
  {
    hide Components, Split, JoinParts;
  }

  lemma {:induction false} DropDotsKeeps(s: string)
    requires forall i :: 0 <= i < |s| ==> s[i] != '\\'
    ensures forall i :: 0 <= i < |DropDots(s)| ==> DropDots(s)[i] != '\\'
  {
    if StartsWith(s, "./") { DropDotsKeeps(s[2..]); }
  }

  /** Accepted are the relative paths that stay inside the project, and the result is the place they
      lead to. */
  lemma CanonicalIsDenoted(compose: Compose, value: string)
    ensures var path := Prepared(compose, value);
            Canonical(compose, value) == if StartsWith(path, "/") then None else Denoted(path)
  {
    hide NormPath, Refused, Denoted, Strip;
    var path := Prepared(compose, value);
    DropDotsKeeps(Slashed(compose(Strip(value))));
    if StartsWith(path, "/") { AbsoluteIsRefused(path); } else { NormalIsDenoted(path); }
  }

  // ----- canonical paths again -----

  lemma {:induction false} SplitName(name: string, rest: string)
    requires NoSlash(name)
    ensures Split(name) == [name]
    ensures Split(name + "/" + rest) == [name] + Split(rest)
  {
    if name == "" {
      var s := name + "/" + rest;
      assert s[0] == '/' && s[1..] == rest;
      assert Split(s) == [""] + Split(rest);
    } else {
      SplitName(name[1..], rest);
      assert name == [name[0]] + name[1..];
      assert (name + "/" + rest)[1..] == name[1..] + "/" + rest;
    }
  }

  lemma {:induction false} SplitJoined(names: seq<string>)
    requires names != [] && Names(names)
    ensures Split(JoinParts(names)) == names
  {
    assert IsName(names[0]);
    if |names| == 1 {
      SplitName(names[0], "");
    } else {
      SplitName(names[0], JoinParts(names[1..]));
      SplitJoined(names[1..]);
    }
  }

  lemma {:induction false} WalkOfNames(names: seq<string>, at: seq<string>)
    requires Names(names)
    ensures Walk(names, at) == Some(at + names)
  {
    if names == [] {
      assert at + names == at;
    } else {
      assert IsName(names[0]);
      WalkOfNames(names[1..], at + [names[0]]);
      assert at + [names[0]] + names[1..] == at + names;
    }
  }

  lemma {:induction false} JoinedHasNoBackslash(names: seq<string>)
    requires Names(names)
    ensures forall i :: 0 <= i < |JoinParts(names)| ==> JoinParts(names)[i] != '\\'
  {
    if names != [] {
      assert IsName(names[0]);
      JoinedHasNoBackslash(names[1..]);
    }
  }

  // ----- below a directory -----

  lemma {:induction false} SplitTwo(a: string, b: string)
    ensures Split(a + "/" + b) == Split(a) + Split(b)
  {
    var s := a + "/" + b;
    if a == "" {
      assert s[0] == '/' && s[1..] == b;
      assert Split(s) == [""] + Split(b);
    } else {
      SplitTwo(a[1..], b);
      assert s[0] == a[0] && s[1..] == a[1..] + "/" + b;
    }
  }

  lemma {:induction false} JoinTwo(a: seq<string>, b: seq<string>)
    requires a != [] && b != []
    ensures JoinParts(a + b) == JoinParts(a) + "/" + JoinParts(b)
  {
    if |a| == 1 {
      assert (a + b)[1..] == b;
    } else {
      assert (a + b)[1..] == a[1..] + b;
      JoinTwo(a[1..], b);
      assert a[0] + "/" + (JoinParts(a[1..]) + "/" + JoinParts(b))
          == a[0] + "/" + JoinParts(a[1..]) + "/" + JoinParts(b);
    }
  }

  /** Comparing texts finds exactly the paths at or below a directory, segment by segment: `a/bc` is
      not below `a/b`. */
  lemma BelowIsPrefix(dir: seq<string>, path: seq<string>)
    requires dir != [] && path != [] && Names(dir) && Names(path)
    ensures JoinParts(path) == JoinParts(dir) || StartsWith(JoinParts(path), JoinParts(dir) + "/") <==> dir <= path
  {
    hide Split, JoinParts, Names;
    var d, p := JoinParts(dir), JoinParts(path);
    SplitJoined(dir);
    SplitJoined(path);
    if StartsWith(p, d + "/") {
      var tail := p[|d| + 1..];
      assert p == d + "/" + tail;
      SplitTwo(d, tail);
    }
    if dir <= path && dir != path {
      JoinTwo(dir, path[|dir|..]);
      assert path == dir + path[|dir|..];
    }
  }

  function Size(parts: seq<string>): nat { if parts == [] then 0 else |parts[0]| + 1 + Size(parts[1..]) }

  lemma {:induction false} SizeOfConcat(a: seq<string>, b: seq<string>)
    ensures Size(a + b) == Size(a) + Size(b)
  {
    if a == [] { assert a + b == b; } else {
      assert (a + b)[1..] == a[1..] + b;
      SizeOfConcat(a[1..], b);
    }
  }

  lemma {:induction false} SizeOfSplit(s: string)
    ensures Size(Split(s)) == |s| + 1
  {
    if s != "" {
      SizeOfSplit(s[1..]);
      assert ([""] + Split(s[1..]))[1..] == Split(s[1..]);
    }
  }

  lemma {:induction false} SizeOfJoin(names: seq<string>)
    requires names != []
    ensures |JoinParts(names)| + 1 == Size(names)
  {
    if |names| > 1 { SizeOfJoin(names[1..]); }
  }

  lemma {:induction false} WalkShrinks(parts: seq<string>, at: seq<string>)
    ensures Walk(parts, at).Some? ==> Size(Walk(parts, at).value) <= Size(at) + Size(parts)
  {
    if parts != [] {
      var p, rest := parts[0], parts[1..];
      if p == "" || p == "." { WalkShrinks(rest, at); }
      else if p != ".." {
        SizeOfConcat(at, [p]);
        WalkShrinks(rest, at + [p]);
      } else if at != [] {
        SizeOfConcat(at[..|at| - 1], [at[|at| - 1]]);
        assert at == at[..|at| - 1] + [at[|at| - 1]];
        WalkShrinks(rest, at[..|at| - 1]);
      }
    }
  }

  /** No accepted path grows. */
  lemma DenotedIsShorter(path: string)
    ensures Denoted(path).Some? ==> |Denoted(path).value| <= |path|
  {
    if Denoted(path).Some? {
      WalkShrinks(Split(path), []);
      SizeOfSplit(path);
      SizeOfJoin(Walk(Split(path), []).value);
    }
  }

  /** A canonical path: proper names between slashes, and no drive. */
  lemma CanonicalShape(compose: Compose, value: string) returns (names: seq<string>)
    requires Canonical(compose, value).Some?
    ensures names != [] && Names(names) && Canonical(compose, value) == Some(JoinParts(names))
    ensures !HasDrive(JoinParts(names))
  {
    hide NormPath, Refused, Strip;
    var path := Prepared(compose, value);
    CanonicalIsDenoted(compose, value);
    DropDotsKeeps(Slashed(compose(Strip(value))));
    SplitParts(path);
    WalkNames(Split(path), []);
    names := Walk(Split(path), []).value;
  }

  /** Canonicalising a canonical path gives it back if and only if it has no space at either end.
      Stripping composed text leaves it composed. */
  lemma CanonicalTwice(compose: Compose, value: string)
    requires Canonical(compose, value).Some?
    requires compose(Strip(Canonical(compose, value).value)) == Strip(Canonical(compose, value).value)
    ensures var p := Canonical(compose, value).value;
            Canonical(compose, p) == Some(p) <==> Strip(p) == p
  {
    hide NormPath, Refused, Denoted, Strip, Canonical, Walk, Split;
    var names := CanonicalShape(compose, value);
    var p := JoinParts(names);
    CanonicalIsDenoted(compose, p);
    if Strip(p) == p {
      JoinedHasNoBackslash(names);
      assert Slashed(p) == p;
      NameStarts(names);
      assert DropDots(p) == p;
      DenotedNames(names);
    } else {
      StripShrinks(p);
      DenotedIsShorter(Prepared(compose, p));
    }
  }

  lemma DenotedNames(names: seq<string>)
    requires names != [] && Names(names) && !HasDrive(JoinParts(names))
    ensures Denoted(JoinParts(names)) == Some(JoinParts(names))
  {
    SplitJoined(names);
    WalkOfNames(names, []);
    assert [] + names == names;
  }

  lemma {:induction false} LStripShrinks(s: string)
    ensures LStrip(s) == s || |LStrip(s)| < |s|
  {
    if s != "" && IsSpace(s[0]) { LStripShrinks(s[1..]); }
  }

  lemma {:induction false} RStripShrinks(s: string)
    ensures RStrip(s) == s || |RStrip(s)| < |s|
  {
    if s != "" && IsSpace(s[|s| - 1]) { RStripShrinks(s[..|s| - 1]); }
  }

  lemma StripShrinks(s: string)
    ensures Strip(s) == s || |Strip(s)| < |s|
  {
    LStripShrinks(s);
    RStripShrinks(LStrip(s));
  }

  /** A path that is not canonical yet after one call: the slash shields the space. */
  lemma SpaceIsLeft()
    ensures Canonical(s => s, "x /") == Some("x ") && Strip("x ") == "x"
  {
    hide NormPath, Refused;
    var s := "x /";
    assert Strip(s) == s;
    assert Slashed(s) == s && DropDots(s) == s;
    CanonicalIsDenoted(t => t, s);
    PlaceOfSpace();
    assert LStrip("x ") == "x ";
    assert RStrip("x ") == RStrip("x") == "x";
  }

  lemma PlaceOfSpace()
    ensures Denoted("x /") == Some("x ")
  {
    SplitName("x ", "");
    assert "x " + "/" + "" == "x /";
    assert Walk(["x ", ""], []) == Walk([""], ["x "]) by { assert ["x ", ""][1..] == [""] && [] + ["x "] == ["x "]; }
    assert Walk([""], ["x "]) == Some(["x "]) by { assert [""][1..] == []; }
  }
}
