/** The diff reader of src/claim_plane/acceptance_witness.py on whole texts. Its `splitlines` also
    cuts inside a diff line, at a carriage return, a form feed or another line boundary of Python. */
module DiffText {
  import opened Wrappers
  import opened Json
  import opened ConfigText
  import opened AddedLines

  // ----- what is cut -----

  /** The lines that one line of the diff is read as. */
  function Pieces(line: string): (r: seq<string>)
    ensures r != [] && r[0] == line[..LineLength(line)]
  {
    FirstPiece(line);
    SplitLines(line + "\n")
  }

  lemma FirstPiece(line: string)
    ensures var r := SplitLines(line + "\n"); r != [] && r[0] == line[..LineLength(line)]
  {
    LengthBefore(line, "\n");
    var s := line + "\n";
    assert s[..LineLength(line)] == line[..LineLength(line)];
  }

  lemma {:induction false} LengthBefore(line: string, tail: string)
    requires tail != "" && IsBreak(tail[0])
    ensures LineLength(line + tail) == LineLength(line)
  {
    if line == "" {
      assert line + tail == tail;
    } else if !IsBreak(line[0]) {
      LengthBefore(line[1..], tail);
      assert (line + tail)[1..] == line[1..] + tail;
    }
  }

  function Cut(lines: seq<string>): seq<string> {
    if lines == [] then [] else Pieces(lines[0]) + Cut(lines[1..])
  }

  function NextLine(s: string, k: nat): nat {
    if k + 1 < |s| && s[k] == '\r' && s[k + 1] == '\n' then k + 2 else k + 1
  }

  lemma SplitStep(s: string)
    requires LineLength(s) < |s|
    ensures var k := LineLength(s); SplitLines(s) == [s[..k]] + SplitLines(s[NextLine(s, k)..])
  {
    hide LineLength;
  }

  lemma {:induction false} SplitAtNewline(a: string, b: string)
    ensures SplitLines(a + "\n" + b) == Pieces(a) + SplitLines(b)
    decreases |a|
  {
    hide SplitLines, LineLength;
    var s, t, k := a + "\n" + b, a + "\n", LineLength(a);
    LengthBefore(a, "\n");
    LengthBefore(a, "\n" + b);
    assert s == a + ("\n" + b);
    SplitStep(s);
    SplitStep(t);
    assert s[..k] == t[..k];
    var next := NextLine(t, k);
    if next > |a| {
      assert s[next..] == b && t[next..] == "";
      NothingToSplit();
    } else {
      assert s[next..] == a[next..] + "\n" + b && t[next..] == a[next..] + "\n";
      SplitAtNewline(a[next..], b);
    }
  }

  lemma NothingToSplit()
    ensures SplitLines("") == []
  {
  }

  /** Reading joined lines is reading the pieces of each. */
  lemma {:induction false} SplitIsCut(lines: seq<string>)
    requires lines != []
    ensures SplitLines(Join(lines) + "\n") == Cut(lines)
  {
    hide SplitLines, Pieces;
    var rest := Join(lines[1..]) + "\n";
    if |lines| == 1 {
      EndOfText(lines[0]);
      assert Cut(lines[1..]) == [];
    } else {
      SplitIsCut(lines[1..]);
      SplitAtNewline(lines[0], rest);
      assert Join(lines) + "\n" == lines[0] + "\n" + rest;
    }
  }

  lemma EndOfText(line: string)
    ensures SplitLines(line + "\n") == Pieces(line)
  {
  }

  lemma CutStep(lines: seq<string>)
    requires lines != []
    ensures Cut(lines) == Pieces(lines[0]) + Cut(lines[1..])
  {
  }

  lemma Reassociate<T>(a: seq<T>, b: seq<T>, c: seq<T>)
    ensures (a + b) + c == a + (b + c)
  {
  }

  lemma NothingCut()
    ensures Cut([]) == []
  {
  }

  lemma {:induction false} CutConcat(a: seq<string>, b: seq<string>)
    ensures Cut(a + b) == Cut(a) + Cut(b)
  {
    hide Cut, Pieces;
    if a == [] {
      assert a + b == b;
      NothingCut();
    } else {
      CutConcat(a[1..], b);
      assert (a + b)[1..] == a[1..] + b;
      CutStep(a);
      CutStep(a + b);
      Reassociate(Pieces(a[0]), Cut(a[1..]), Cut(b));
    }
  }

  // ----- hunks as they are read -----

  /** A piece after a cut is in no file. In a hunk it moves the count on or does nothing, just like a
      removed line with and without two dashes. */
  function Stray(piece: string): DiffLine { Removed(if KindOf(piece) == Counts then "--" else "") }

  function Strays(pieces: seq<string>): seq<DiffLine> {
    if pieces == [] then [] else [Stray(pieces[0])] + Strays(pieces[1..])
  }

  function CutBody(lines: seq<DiffLine>): seq<DiffLine> {
    if lines == [] then [] else CutLine(lines[0]) + CutBody(lines[1..])
  }

  function CutLine(l: DiffLine): seq<DiffLine> {
    [l.(text := l.text[..LineLength(l.text)])] + Strays(Pieces(LineText(l))[1..])
  }

  function CutHunk(h: Hunk): Hunk {
    h.(section := h.section[..LineLength(h.section)], lines := Strays(Pieces(HeaderText(h))[1..]) + CutBody(h.lines))
  }

  function CutHunks(hunks: seq<Hunk>): seq<Hunk> {
    if hunks == [] then [] else [CutHunk(hunks[0])] + CutHunks(hunks[1..])
  }

  /** No piece after a cut is taken for an added line or a hunk header. */
  predicate Tame(line: string) {
    forall i :: 1 <= i < |Pieces(line)| ==> HunkHeader(Pieces(line)[i]).None? && KindOf(Pieces(line)[i]) != Adds
  }

  predicate TameLines(lines: seq<DiffLine>) { forall i :: 0 <= i < |lines| ==> Tame(LineText(lines[i])) }

  predicate TameHunks(hunks: seq<Hunk>) {
    forall i :: 0 <= i < |hunks| ==> Tame(HeaderText(hunks[i])) && TameLines(hunks[i].lines)
  }

  // ----- reading alike -----

  predicate Alike(a: string, b: string) {
    HunkHeader(a) == HunkHeader(b)
    && (KindOf(a) == KindOf(b) || (KindOf(a) in {Removes, Skips} && KindOf(b) in {Removes, Skips}))
  }

  predicate AllAlike(a: seq<string>, b: seq<string>) {
    |a| == |b| && forall i :: 0 <= i < |a| ==> Alike(a[i], b[i])
  }

  lemma {:induction false} ScanAlike(a: seq<string>, b: seq<string>, n: nat, inHunk: bool)
    requires AllAlike(a, b)
    ensures Scan(a, n, inHunk) == Scan(b, n, inHunk)
  {
    hide HunkHeader, KindOf;
    if a != [] {
      assert Alike(a[0], b[0]);
      assert forall i :: 0 <= i < |a[1..]| ==> a[1..][i] == a[i + 1] && b[1..][i] == b[i + 1];
      forall m: nat, h ensures Scan(a[1..], m, h) == Scan(b[1..], m, h) { ScanAlike(a[1..], b[1..], m, h); }
    }
  }

  lemma AlikeConcat(a: seq<string>, b: seq<string>, c: seq<string>, d: seq<string>)
    requires AllAlike(a, b) && AllAlike(c, d)
    ensures AllAlike(a + c, b + d)
  {
    hide Alike;
  }

  lemma StrayIsAlike(piece: string)
    requires HunkHeader(piece).None? && KindOf(piece) != Adds
    ensures Alike(piece, LineText(Stray(piece)))
  {
    KindOfRendered(Stray(piece));
    assert "--"[..2] == "--";
  }

  lemma {:induction false} StraysAreAlike(pieces: seq<string>)
    requires forall i :: 0 <= i < |pieces| ==> HunkHeader(pieces[i]).None? && KindOf(pieces[i]) != Adds
    ensures AllAlike(pieces, BodyTexts(Strays(pieces)))
  {
    hide HunkHeader, KindOf, Alike, Stray;
    if pieces != [] {
      var rest := pieces[1..];
      assert forall i :: 0 <= i < |rest| ==> rest[i] == pieces[i + 1];
      StrayIsAlike(pieces[0]);
      StraysAreAlike(rest);
      AlikeConcat([pieces[0]], [LineText(Stray(pieces[0]))], rest, BodyTexts(Strays(rest)));
      assert pieces == [pieces[0]] + rest;
      assert Strays(pieces)[1..] == Strays(rest);
    }
  }

  lemma {:induction false} BodyConcat(a: seq<DiffLine>, b: seq<DiffLine>)
    ensures BodyTexts(a + b) == BodyTexts(a) + BodyTexts(b)
  {
    hide LineText;
    if a == [] {
      assert a + b == b;
    } else {
      BodyConcat(a[1..], b);
      assert (a + b)[1..] == a[1..] + b;
    }
  }

  lemma {:induction false} LengthAfter(prefix: string, text: string)
    requires NoBreaks(prefix)
    ensures LineLength(prefix + text) == |prefix| + LineLength(text)
  {
    if prefix == "" {
      assert prefix + text == text;
    } else {
      LengthAfter(prefix[1..], text);
      assert (prefix + text)[1..] == prefix[1..] + text;
    }
  }

  /** The first piece of a rendered line is the line rendered up to the cut. */
  lemma FirstPieceOfLine(l: DiffLine)
    ensures Pieces(LineText(l))[0] == LineText(l.(text := l.text[..LineLength(l.text)]))
  {
    hide Pieces, LineLength, SplitLines;
    var marker := LineText(l)[..1];
    assert LineText(l) == marker + l.text;
    LengthAfter(marker, l.text);
    var k := LineLength(l.text);
    assert (marker + l.text)[..1 + k] == marker + l.text[..k];
  }

  lemma FirstPieceOfHeader(h: Hunk)
    ensures Pieces(HeaderText(h))[0] == HeaderText(h.(section := h.section[..LineLength(h.section)]))
  {
    hide Digits, CountText, Pieces, LineLength, SplitLines;
    var marks := Digits(h.oldStart) + CountText(h.oldCount)
        + (" +" + (Digits(h.newStart) + CountText(h.newCount) + " @@"));
    PlainMarks(h);
    var p := "@@ -" + marks;
    assert HeaderText(h) == p + h.section;
    LengthAfter(p, h.section);
    var cut := h.section[..LineLength(h.section)];
    assert HeaderText(h.(section := cut)) == p + cut;
    assert (p + h.section)[..|p| + |cut|] == p + cut;
  }

  lemma PlainMarks(h: Hunk)
    ensures NoBreaks("@@ -"
                     + (Digits(h.oldStart) + CountText(h.oldCount)
                        + (" +" + (Digits(h.newStart) + CountText(h.newCount) + " @@"))))
  {
    assert forall c :: IsDigit(c) ==> !IsBreak(c);
    PlainCount(h.oldCount);
    PlainCount(h.newCount);
    assert NoBreaks(Digits(h.oldStart)) && NoBreaks(Digits(h.newStart));
  }

  lemma PlainCount(count: Option<nat>)
    ensures NoBreaks(CountText(count))
  {
    assert forall c :: IsDigit(c) ==> !IsBreak(c);
  }

  lemma LineIsAlike(l: DiffLine)
    requires Tame(LineText(l))
    ensures AllAlike(Pieces(LineText(l)), BodyTexts(CutLine(l)))
  {
    hide HunkHeader, KindOf, Pieces, LineLength;
    var pieces := Pieces(LineText(l));
    var first := l.(text := l.text[..LineLength(l.text)]);
    FirstPieceOfLine(l);
    StraysAreAlike(pieces[1..]);
    BodyConcat([first], Strays(pieces[1..]));
    AlikeConcat([pieces[0]], [LineText(first)], pieces[1..], BodyTexts(Strays(pieces[1..])));
    assert BodyTexts([first]) == [LineText(first)] + [];
    assert pieces == [pieces[0]] + pieces[1..];
  }

  lemma {:induction false} BodyIsAlike(lines: seq<DiffLine>)
    requires TameLines(lines)
    ensures AllAlike(Cut(BodyTexts(lines)), BodyTexts(CutBody(lines)))
  {
    hide Alike, Pieces, CutLine, Tame, LineText;
    if lines != [] {
      assert forall i :: 0 <= i < |lines[1..]| ==> lines[1..][i] == lines[i + 1];
      LineIsAlike(lines[0]);
      BodyIsAlike(lines[1..]);
      BodyConcat(CutLine(lines[0]), CutBody(lines[1..]));
      AlikeConcat(Pieces(LineText(lines[0])), BodyTexts(CutLine(lines[0])), Cut(BodyTexts(lines[1..])),
                  BodyTexts(CutBody(lines[1..])));
      assert BodyTexts(lines)[1..] == BodyTexts(lines[1..]);
    }
  }

  lemma HunkIsAlike(h: Hunk)
    requires Tame(HeaderText(h)) && TameLines(h.lines)
    ensures AllAlike(Cut([HeaderText(h)] + BodyTexts(h.lines)), [HeaderText(CutHunk(h))] + BodyTexts(CutHunk(h).lines))
  {
    hide Alike, Pieces, CutBody, LineText, HunkHeader, KindOf, LineLength, TameLines, HeaderText, Cut;
    var pieces := Pieces(HeaderText(h));
    var strays := Strays(pieces[1..]);
    FirstPieceOfHeader(h);
    SameHeader(h);
    StraysAreAlike(pieces[1..]);
    AlikeItself(HeaderText(CutHunk(h)));
    AlikeConcat([pieces[0]], [HeaderText(CutHunk(h))], pieces[1..], BodyTexts(strays));
    assert pieces == [pieces[0]] + pieces[1..];
    BodyIsAlike(h.lines);
    AlikeConcat(pieces, [HeaderText(CutHunk(h))] + BodyTexts(strays), Cut(BodyTexts(h.lines)),
                BodyTexts(CutBody(h.lines)));
    BodyConcat(strays, CutBody(h.lines));
    CutConcat([HeaderText(h)], BodyTexts(h.lines));
    CutOne(HeaderText(h));
    assert [HeaderText(CutHunk(h))] + BodyTexts(strays) + BodyTexts(CutBody(h.lines))
        == [HeaderText(CutHunk(h))] + BodyTexts(CutHunk(h).lines);
  }

  lemma SameHeader(h: Hunk)
    ensures HeaderText(CutHunk(h)) == HeaderText(h.(section := h.section[..LineLength(h.section)]))
  {
  }

  lemma AlikeItself(line: string)
    ensures AllAlike([line], [line])
  {
  }

  lemma CutOne(line: string)
    ensures Cut([line]) == Pieces(line)
  {
    assert [line][1..] == [] && Pieces(line) + [] == Pieces(line);
  }

  lemma {:induction false} HunksAreAlike(hunks: seq<Hunk>)
    requires TameHunks(hunks)
    ensures AllAlike(Cut(HunkTexts(hunks)), HunkTexts(CutHunks(hunks)))
  {
    hide Alike, Pieces, Tame, TameLines, HeaderText, CutHunk, BodyTexts, Cut;
    if hunks == [] {
      NothingCut();
    } else {
      var h, rest := hunks[0], hunks[1..];
      assert forall i :: 0 <= i < |rest| ==> rest[i] == hunks[i + 1];
      HunkIsAlike(h);
      HunksAreAlike(rest);
      var own, cut := [HeaderText(h)] + BodyTexts(h.lines), [HeaderText(CutHunk(h))] + BodyTexts(CutHunk(h).lines);
      CutConcat(own, HunkTexts(rest));
      AlikeConcat(Cut(own), cut, Cut(HunkTexts(rest)), HunkTexts(CutHunks(rest)));
      assert HunkTexts(hunks) == own + HunkTexts(rest);
      assert CutHunks(hunks)[1..] == CutHunks(rest);
    }
  }

  // ----- the true lines stay -----

  lemma StrayIsRemoved(piece: string)
    ensures Stray(piece).Removed?
  {
  }

  lemma {:induction false} StraysAreNothing(pieces: seq<string>, lines: seq<DiffLine>, n: nat)
    ensures TrueLines(Strays(pieces) + lines, n) == TrueLines(lines, n)
    ensures NewLength(Strays(pieces) + lines) == NewLength(lines)
  {
    hide Stray, TrueLines, NewLength;
    if pieces == [] {
      assert Strays(pieces) + lines == lines;
    } else {
      StraysAreNothing(pieces[1..], lines, n);
      StrayIsRemoved(pieces[0]);
      TrueStep(Strays(pieces) + lines, n);
      assert (Strays(pieces) + lines)[1..] == Strays(pieces[1..]) + lines;
    }
  }

  lemma {:induction false} CutBodyIsTrue(lines: seq<DiffLine>, n: nat)
    ensures TrueLines(CutBody(lines), n) == TrueLines(lines, n) && NewLength(CutBody(lines)) == NewLength(lines)
  {
    hide CutLine, TrueLines, NewLength;
    if lines == [] {
      assert CutBody(lines) == lines;
    } else {
      var next := if lines[0].Added? || lines[0].Context? then n + 1 else n;
      CutBodyIsTrue(lines[1..], next);
      CutLineIsTrue(lines[0], CutBody(lines[1..]), n);
      TrueStep(lines, n);
      assert lines == [lines[0]] + lines[1..];
    }
  }

  lemma TrueStep(lines: seq<DiffLine>, n: nat)
    requires lines != []
    ensures var covers := lines[0].Added? || lines[0].Context?;
            && TrueLines(lines, n)
               == (if lines[0].Added? then {n} else {}) + TrueLines(lines[1..], if covers then n + 1 else n)
            && NewLength(lines) == (if covers then 1 else 0) + NewLength(lines[1..])
  {
  }

  lemma CutLineIsTrue(l: DiffLine, more: seq<DiffLine>, n: nat)
    ensures var covers := l.Added? || l.Context?;
            && TrueLines(CutLine(l) + more, n)
               == (if l.Added? then {n} else {}) + TrueLines(more, if covers then n + 1 else n)
            && NewLength(CutLine(l) + more) == (if covers then 1 else 0) + NewLength(more)
  {
    hide Pieces, LineLength, Strays, TrueLines, NewLength, LineText;
    var strays := Pieces(LineText(l))[1..];
    TrueStep(CutLine(l) + more, n);
    StraysAreNothing(strays, more, if l.Added? || l.Context? then n + 1 else n);
    assert (CutLine(l) + more)[1..] == Strays(strays) + more;
  }

  lemma CutHunkIsTrue(h: Hunk)
    ensures var c := CutHunk(h);
            c.newStart == h.newStart && TrueLines(c.lines, h.newStart) == TrueLines(h.lines, h.newStart)
            && NewLength(c.lines) == NewLength(h.lines)
  {
    hide Pieces, CutBody, Strays, HeaderText, LineLength, TrueLines, NewLength;
    StraysAreNothing(Pieces(HeaderText(h))[1..], CutBody(h.lines), h.newStart);
    CutBodyIsTrue(h.lines, h.newStart);
  }

  lemma {:induction false} CutHunksAreTrue(hunks: seq<Hunk>, from: nat)
    ensures TrueAdded(CutHunks(hunks)) == TrueAdded(hunks) && InOrder(CutHunks(hunks), from) == InOrder(hunks, from)
  {
    hide CutHunk, TrueLines, NewLength;
    if hunks != [] {
      var h := hunks[0];
      CutHunkIsTrue(h);
      CutHunksAreTrue(hunks[1..], from);
      CutHunksAreTrue(hunks[1..], h.newStart + NewLength(h.lines));
      assert CutHunks(hunks)[0] == CutHunk(h) && CutHunks(hunks)[1..] == CutHunks(hunks[1..]);
    }
  }

  // ----- the whole text -----

  /** The text of a whole file diff. */
  function FileDiff(preamble: seq<string>, hunks: seq<Hunk>): string { Join(preamble + HunkTexts(hunks)) + "\n" }

  /** A preamble as it is read holds no hunk header. */
  predicate IsPreamble(preamble: seq<string>) {
    preamble != [] && forall i :: 0 <= i < |Cut(preamble)| ==> HunkHeader(Cut(preamble)[i]).None?
  }

  /** For the printed diff of one file, whatever line boundaries its lines hold: as long as no piece
      after a cut is taken for an added line or a header, the reader returns exactly the new-side
      numbers of the added lines if and only if every hunk is readable as it is cut. */
  lemma AddedLinesExactly(preamble: seq<string>, hunks: seq<Hunk>)
    requires IsPreamble(preamble)
    requires TameHunks(hunks) && InOrder(hunks, 0)
    ensures Scan(SplitLines(FileDiff(preamble, hunks)), 0, false) == TrueAdded(hunks) <==> AllReadable(CutHunks(hunks))
  {
    hide *;
    PreambleIs(preamble);
    FileIsCut(preamble, hunks);
    HunksAreAlike(hunks);
    PreambleIsAlike(Cut(preamble));
    AlikeConcat(Cut(preamble), Cut(preamble), Cut(HunkTexts(hunks)), HunkTexts(CutHunks(hunks)));
    ScanAlike(Cut(preamble) + Cut(HunkTexts(hunks)), Cut(preamble) + HunkTexts(CutHunks(hunks)), 0, false);
    ScanPreamble(Cut(preamble), CutHunks(hunks));
    CutHunksAreTrue(hunks, 0);
    ExactIffReadable(CutHunks(hunks), 0);
  }

  lemma PreambleIs(preamble: seq<string>)
    requires IsPreamble(preamble)
    ensures preamble != [] && forall i :: 0 <= i < |Cut(preamble)| ==> HunkHeader(Cut(preamble)[i]).None?
  {
  }

  lemma FileIsCut(preamble: seq<string>, hunks: seq<Hunk>)
    requires preamble != []
    ensures SplitLines(FileDiff(preamble, hunks)) == Cut(preamble) + Cut(HunkTexts(hunks))
  {
    SplitIsCut(preamble + HunkTexts(hunks));
    CutConcat(preamble, HunkTexts(hunks));
  }

  lemma PreambleIsAlike(lines: seq<string>)
    ensures AllAlike(lines, lines)
  {
  }

  lemma {:induction false} WholeLine(line: string)
    requires NoBreaks(line)
    ensures LineLength(line) == |line| && Pieces(line) == [line]
  {
    hide SplitLines, LineLength;
    LengthAfter(line, "");
    EmptyLength();
    assert line + "" == line;
    LengthBefore(line, "\n");
    var s := line + "\n";
    SplitStep(s);
    assert s[..|line|] == line && s[|line| + 1..] == "";
    NothingToSplit();
  }

  lemma EmptyLength()
    ensures LineLength("") == 0
  {
  }

  /** Lines without further boundaries are not cut. */
  lemma {:induction false} WholeBody(lines: seq<DiffLine>)
    requires forall i :: 0 <= i < |lines| ==> NoBreaks(lines[i].text)
    ensures CutBody(lines) == lines && TameLines(lines)
  {
    hide NoBreaks, CutLine, Tame;
    if lines != [] {
      assert forall i :: 0 <= i < |lines[1..]| ==> lines[1..][i] == lines[i + 1];
      WholeDiffLine(lines[0]);
      WholeBody(lines[1..]);
      assert forall i :: 1 <= i < |lines| ==> lines[i] == lines[1..][i - 1];
      assert lines == [lines[0]] + lines[1..];
    }
  }

  lemma WholeDiffLine(l: DiffLine)
    requires NoBreaks(l.text)
    ensures CutLine(l) == [l] && Tame(LineText(l))
  {
    hide Pieces, LineLength;
    WholeLine(l.text);
    assert NoBreaks(LineText(l));
    WholeLine(LineText(l));
    assert l.text[..|l.text|] == l.text && Strays([]) == [];
  }

  /** One line boundary inside a line. */
  lemma CutOnce(a: string, c: char, b: string)
    requires NoBreaks(a) && IsBreak(c) && c != '\r' && NoBreaks(b)
    ensures LineLength(a + [c] + b) == |a| && Pieces(a + [c] + b) == [a, b]
  {
    hide SplitLines, LineLength;
    var line := a + [c] + b;
    WholeLine(a);
    assert line == a + ([c] + b);
    LengthBefore(a, [c] + b);
    LengthBefore(line, "\n");
    var s := line + "\n";
    SplitStep(s);
    assert s[..|a|] == a && s[|a| + 1..] == b + "\n";
    WholeLine(b);
  }

  predicate Unbroken(h: Hunk) { NoBreaks(h.section) && forall i :: 0 <= i < |h.lines| ==> NoBreaks(h.lines[i].text) }

  lemma WholeHunk(h: Hunk)
    requires Unbroken(h)
    ensures CutHunk(h) == h && Tame(HeaderText(h)) && TameLines(h.lines)
  {
    hide Pieces, LineLength, Digits, CountText, CutBody, TameLines;
    PlainMarks(h);
    WholeLine(h.section);
    var p := "@@ -" + (Digits(h.oldStart) + CountText(h.oldCount)
                       + (" +" + (Digits(h.newStart) + CountText(h.newCount) + " @@")));
    assert HeaderText(h) == p + h.section;
    WholeLine(HeaderText(h));
    WholeBody(h.lines);
    assert h.section[..|h.section|] == h.section && Strays([]) + h.lines == h.lines;
  }

  /** Without line boundaries inside its lines a diff is read as git prints it. */
  lemma {:induction false} WholeHunks(hunks: seq<Hunk>)
    requires forall i :: 0 <= i < |hunks| ==> Unbroken(hunks[i])
    ensures CutHunks(hunks) == hunks && TameHunks(hunks)
  {
    hide CutHunk, Tame, TameLines, Unbroken, HeaderText;
    if hunks != [] {
      assert forall i :: 0 <= i < |hunks[1..]| ==> hunks[1..][i] == hunks[i + 1];
      WholeHunk(hunks[0]);
      WholeHunks(hunks[1..]);
      assert forall i :: 1 <= i < |hunks| ==> hunks[i] == hunks[1..][i - 1];
      assert hunks == [hunks[0]] + hunks[1..];
    }
  }

  function OneHunk(lines: seq<DiffLine>): seq<Hunk> { [Hunk(1, None, 1, None, "", lines)] }

  lemma {:induction false} ScanSkips(lines: seq<string>, rest: seq<string>)
    requires forall i :: 0 <= i < |lines| ==> HunkHeader(lines[i]).None?
    ensures Scan(lines + rest, 0, false) == Scan(rest, 0, false)
  {
    hide HunkHeader, KindOf;
    if lines == [] {
      assert lines + rest == rest;
    } else {
      assert (lines + rest)[1..] == lines[1..] + rest;
      ScanSkips(lines[1..], rest);
    }
  }

  /** The diff of one hunk that starts at line 1. */
  lemma ScanOneHunk(preamble: seq<string>, lines: seq<DiffLine>)
    requires IsPreamble(preamble)
    ensures Scan(SplitLines(FileDiff(preamble, OneHunk(lines))), 0, false) == Scan(Cut(BodyTexts(lines)), 1, true)
  {
    hide SplitLines, HunkHeader, Scan, Cut, FileDiff, HeaderText, BodyTexts, Pieces;
    var h := OneHunk(lines)[0];
    var header := HeaderText(h);
    FileIsCut(preamble, OneHunk(lines));
    TextsOf(OneHunk(lines));
    NoTexts(0, false);
    assert OneHunk(lines)[1..] == [];
    assert HunkTexts(OneHunk(lines)) == [header] + BodyTexts(lines);
    CutConcat([header], BodyTexts(lines));
    CutOne(header);
    PlainHeader(h);
    ScanSkips(Cut(preamble), [header] + Cut(BodyTexts(lines)));
    HeaderRoundTrip(h);
    ScanHeader(header, Cut(BodyTexts(lines)), 0, false);
  }

  lemma PlainHeader(h: Hunk)
    requires h.section == ""
    ensures Pieces(HeaderText(h)) == [HeaderText(h)]
  {
    hide Digits, CountText, Pieces;
    PlainMarks(h);
    var p := "@@ -" + (Digits(h.oldStart) + CountText(h.oldCount)
                       + (" +" + (Digits(h.newStart) + CountText(h.newCount) + " @@")));
    assert HeaderText(h) == p;
    WholeLine(p);
  }

  /** A form feed in an added line, as a page break in a source file, shifts the lines after it: every
      hunk is readable as git prints it, and yet line 3 is reported in the place of line 2. */
  lemma FormFeedShiftsLines(preamble: seq<string>)
    requires IsPreamble(preamble)
    ensures var hunks := OneHunk([Added("a\U{000C}b"), Added("c")]);
            && AllReadable(hunks) && TrueAdded(hunks) == {1, 2}
            && Scan(SplitLines(FileDiff(preamble, hunks)), 0, false) == {1, 3}
  {
    hide SplitLines, LineLength, HunkHeader, AllReadable, TrueAdded, Scan, Cut, KindOf, IsPreamble, FileDiff;
    KindsOf();
    var lines := [Added("a\U{000C}b"), Added("c")];
    ScanOneHunk(preamble, lines);
    TwoLines(lines);
    CutOnce("+a", '\U{000C}', "b");
    WholeLine("+c");
    assert LineText(lines[0]) == "+a" + ['\U{000C}'] + "b" && LineText(lines[1]) == "+c";
    assert ["+a", "b"] + ["+c"] == ["+a", "b", "+c"];
    NoHeader("+a");
    NoHeader("b");
    NoHeader("+c");
    ScanThree("+a", "b", "+c", 1);
  }

  /** Where a piece is taken for an added line, the reader can be right by luck: the false line stands
      in for one that is missed. */
  lemma RightByLuck(preamble: seq<string>)
    requires IsPreamble(preamble)
    ensures var hunks := OneHunk([Added("a\U{000C}+b"), Added("++c")]);
            && !TameHunks(hunks) && !AllReadable(hunks) && TrueAdded(hunks) == {1, 2}
            && Scan(SplitLines(FileDiff(preamble, hunks)), 0, false) == {1, 2}
  {
    hide SplitLines, LineLength, HunkHeader, AllReadable, TrueAdded, Scan, Cut, KindOf, IsPreamble, FileDiff;
    KindsOf();
    var lines := [Added("a\U{000C}+b"), Added("++c")];
    var hunks := OneHunk(lines);
    ScanOneHunk(preamble, lines);
    TwoLines(lines);
    CutOnce("+a", '\U{000C}', "+b");
    WholeLine("+++c");
    assert LineText(lines[0]) == "+a" + ['\U{000C}'] + "+b" && LineText(lines[1]) == "+++c";
    assert ["+a", "+b"] + ["+++c"] == ["+a", "+b", "+++c"];
    NoHeader("+a");
    NoHeader("+b");
    NoHeader("+++c");
    ScanThree("+a", "+b", "+++c", 1);
    assert Pieces(LineText(hunks[0].lines[0]))[1] == "+b";
    assert lines[1..][0] == lines[1] && StartsWith("++c", "++");
  }

  lemma KindsOf()
    ensures KindOf("+a") == KindOf("+b") == KindOf("+c") == Adds && KindOf("b") == KindOf("+++c") == Counts
  {
    assert "+a"[..1] == "+b"[..1] == "+c"[..1] == "+++c"[..1] == "+" && "+++c"[..3] == "+++";
    assert "b"[..1] == "b";
  }

  lemma NoHeader(line: string)
    requires line == "" || line[0] != '@'
    ensures HunkHeader(line).None?
  {
    assert |line| >= 4 ==> line[..4][0] == line[0];
  }

  lemma TwoLines(lines: seq<DiffLine>)
    requires |lines| == 2 && lines[0].Added? && lines[1].Added?
    ensures Cut(BodyTexts(lines)) == Pieces(LineText(lines[0])) + Pieces(LineText(lines[1]))
    ensures var hunks := OneHunk(lines);
            TrueAdded(hunks) == {1, 2}
            && (AllReadable(hunks) <==> !StartsWith(lines[0].text, "++") && !StartsWith(lines[1].text, "++"))
  {
    hide Pieces, StartsWith, LineText, Cut, HasAdded, TrueLines;
    var a, b := LineText(lines[0]), LineText(lines[1]);
    assert lines == [lines[0], lines[1]] && lines[1..] == [lines[1]] && lines[1..][1..] == [];
    assert BodyTexts(lines[1..]) == [b] && BodyTexts(lines) == [a, b] && [a, b][1..] == [b];
    CutStep([a, b]);
    CutOne(b);
    TrueStep(lines, 1);
    TrueStep(lines[1..], 2);
    TrueNothing(3);
    var hunks := OneHunk(lines);
    assert hunks[1..] == [];
    assert Readable(lines[1..]) <==> !StartsWith(lines[1].text, "++");
    assert AllReadable(hunks) <==> Readable(hunks[0].lines);
  }

  lemma TrueNothing(n: nat)
    ensures TrueLines([], n) == {}
  {
  }

  lemma ScanThree(a: string, b: string, c: string, n: nat)
    requires HunkHeader(a).None? && HunkHeader(b).None? && HunkHeader(c).None?
    ensures Scan([a, b, c], n, true) ==
              var m := if KindOf(a).Adds? || KindOf(a).Counts? then n + 1 else n;
              var l := if KindOf(b).Adds? || KindOf(b).Counts? then m + 1 else m;
              (if KindOf(a).Adds? then {n} else {}) + (if KindOf(b).Adds? then {m} else {})
                  + (if KindOf(c).Adds? then {l} else {})
  {
    hide HunkHeader, KindOf, Scan;
    var m := if KindOf(a).Adds? || KindOf(a).Counts? then n + 1 else n;
    ScanOne(a, [b, c], n);
    ScanOne(b, [c], m);
    var l := if KindOf(b).Adds? || KindOf(b).Counts? then m + 1 else m;
    ScanOne(c, [], l);
    NoTexts(if KindOf(c).Adds? || KindOf(c).Counts? then l + 1 else l, true);
    assert [a] + [b, c] == [a, b, c] && [b] + [c] == [b, c] && [c] + [] == [c];
  }

  lemma ScanOne(line: string, rest: seq<string>, n: nat)
    requires HunkHeader(line).None?
    ensures Scan([line] + rest, n, true) ==
              (if KindOf(line).Adds? then {n} else {})
                  + Scan(rest, if KindOf(line).Adds? || KindOf(line).Counts? then n + 1 else n, true)
  {
    hide HunkHeader, KindOf;
    assert ([line] + rest)[1..] == rest;
  }
}
