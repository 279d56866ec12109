/** The unified-diff reader of src/claim_plane/acceptance_witness.py, which decides what tests
    the official input touches, against diffs as they are rendered. */
module AddedLines {
  import opened Wrappers
  import opened Json
  import opened ConfigText

  // ----- reading -----

  /** `(?:,\d+)?` */
  function AfterCount(s: string): string {
    if s == "" || s[0] != ',' || DigitRun(s[1..]) == 0 then s else s[1 + DigitRun(s[1..])..]
  }

  /** `\d+(?:,\d+)?`: the first number, and what follows the pair. */
  function NumberPair(s: string): Option<(nat, string)> {
    var k := DigitRun(s);
    if k == 0 then None else Some((ToNat(s[..k]), AfterCount(s[k..])))
  }

  /** The new-side start of a hunk header, `@@ -a,b +c,d @@` with optional counts. */
  function HunkHeader(line: string): Option<nat> {
    if !StartsWith(line, "@@ -") then None
    else
      match NumberPair(line[4..])
      case None => None
      case Some((_, afterOld)) =>
        if !StartsWith(afterOld, " +") then None
        else
          match NumberPair(afterOld[2..])
          case None => None
          case Some((start, afterNew)) => if StartsWith(afterNew, " @@") then Some(start) else None
  }

  datatype Kind = Adds | Removes | Skips | Counts

  /** What the loop takes a line inside a hunk for. */
  function KindOf(line: string): Kind {
    if StartsWith(line, "+") && !StartsWith(line, "+++") then Adds
    else if StartsWith(line, "-") && !StartsWith(line, "---") then Removes
    else if StartsWith(line, "\\") then Skips
    else Counts
  }

  /** The numbers recorded from a state of the loop on. */
  function Scan(lines: seq<string>, newLine: nat, inHunk: bool): set<nat> {
    if lines == [] then {}
    else
      var header := HunkHeader(lines[0]);
      if header.Some? then Scan(lines[1..], header.value, true)
      else if !inHunk then Scan(lines[1..], newLine, inHunk)
      else
        match KindOf(lines[0])
        case Adds => {newLine} + Scan(lines[1..], newLine + 1, inHunk)
        case Counts => Scan(lines[1..], newLine + 1, inHunk)
        case _ => Scan(lines[1..], newLine, inHunk)
  }

  /** `_added_lines` */
  method ReadAddedLines(diff: string) returns (result: set<nat>)
    ensures result == Scan(SplitLines(diff), 0, false)
  {
    hide HunkHeader, KindOf, SplitLines;
    var lines, newLine, inHunk := SplitLines(diff), 0, false;
    result := {};
    assert lines[0..] == lines;
    for k := 0 to |lines|
      invariant result + Scan(lines[k..], newLine, inHunk) == Scan(lines, 0, false)
    {
      var line := lines[k];
      assert lines[k..][1..] == lines[k + 1..];
      var header := HunkHeader(line);
      if header.Some? {
        newLine, inHunk := header.value, true;
        continue;
      }
      if !inHunk { continue; }
      match KindOf(line) {
        case Adds =>
          result := result + {newLine};
          newLine := newLine + 1;
        case Removes =>
        case Skips =>
        case Counts =>
          newLine := newLine + 1;
      }
    }
  }

  // ----- diffs -----

  datatype DiffLine = Context(text: string) | Added(text: string) | Removed(text: string) | NoNewline(text: string)

  /** `section` is what git prints after the second `@@`. */
  datatype Hunk = Hunk(oldStart: nat, oldCount: Option<nat>, newStart: nat, newCount: Option<nat>, section: string,
                       lines: seq<DiffLine>)

  function CountText(count: Option<nat>): string { if count.None? then "" else "," + Digits(count.value) }

  function HeaderText(h: Hunk): string {
    "@@ -" + (Digits(h.oldStart) + CountText(h.oldCount)
              + (" +" + (Digits(h.newStart) + CountText(h.newCount) + (" @@" + h.section))))
  }

  function LineText(l: DiffLine): string {
    match l
    case Context(text) => " " + text
    case Added(text) => "+" + text
    case Removed(text) => "-" + text
    case NoNewline(text) => "\\" + text
  }

  function BodyTexts(lines: seq<DiffLine>): seq<string> {
    if lines == [] then [] else [LineText(lines[0])] + BodyTexts(lines[1..])
  }

  function HunkTexts(hunks: seq<Hunk>): seq<string> {
    if hunks == [] then [] else [HeaderText(hunks[0])] + BodyTexts(hunks[0].lines) + HunkTexts(hunks[1..])
  }

  /** The new-side numbers of the added lines. */
  function TrueLines(lines: seq<DiffLine>, n: nat): set<nat> {
    if lines == [] then {}
    else
      match lines[0]
      case Added(_) => {n} + TrueLines(lines[1..], n + 1)
      case Context(_) => TrueLines(lines[1..], n + 1)
      case _ => TrueLines(lines[1..], n)
  }

  function TrueAdded(hunks: seq<Hunk>): set<nat> {
    if hunks == [] then {} else TrueLines(hunks[0].lines, hunks[0].newStart) + TrueAdded(hunks[1..])
  }

  /** How many lines of the new file the hunk covers. */
  function NewLength(lines: seq<DiffLine>): nat {
    if lines == [] then 0 else (if lines[0].Added? || lines[0].Context? then 1 else 0) + NewLength(lines[1..])
  }

  /** Hunks come in order and do not overlap on the new side; one that covers nothing there may
      state any start. */
  predicate InOrder(hunks: seq<Hunk>, from: nat) {
    if hunks == [] then true
    else if NewLength(hunks[0].lines) == 0 then InOrder(hunks[1..], from)
    else from <= hunks[0].newStart && InOrder(hunks[1..], hunks[0].newStart + NewLength(hunks[0].lines))
  }

  // ----- when the reader is right -----

  predicate HasAdded(lines: seq<DiffLine>) { exists i :: 0 <= i < |lines| && lines[i].Added? }

  /** No added text starts with `++`, and no removed text that starts with `--` has an added
      line after it in the same hunk. */
  predicate Readable(lines: seq<DiffLine>) {
    lines != [] ==>
    && (lines[0].Added? ==> !StartsWith(lines[0].text, "++"))
    && (lines[0].Removed? && StartsWith(lines[0].text, "--") ==> !HasAdded(lines[1..]))
    && Readable(lines[1..])
  }

  predicate AllReadable(hunks: seq<Hunk>) { forall i :: 0 <= i < |hunks| ==> Readable(hunks[i].lines) }

  /** What the loop records of one hunk body. */
  function Recorded(lines: seq<DiffLine>, n: nat): set<nat> {
    if lines == [] then {}
    else
      match KindOf(LineText(lines[0]))
      case Adds => {n} + Recorded(lines[1..], n + 1)
      case Counts => Recorded(lines[1..], n + 1)
      case _ => Recorded(lines[1..], n)
  }

  function AllRecorded(hunks: seq<Hunk>): set<nat> {
    if hunks == [] then {} else Recorded(hunks[0].lines, hunks[0].newStart) + AllRecorded(hunks[1..])
  }

  lemma StartsWithCons(c: char, text: string, prefix: string)
    requires prefix != ""
    ensures StartsWith([c] + text, prefix) <==> c == prefix[0] && StartsWith(text, prefix[1..])
    ensures StartsWith(text, "")
  {
    if |text| + 1 >= |prefix| {
      assert ([c] + text)[..|prefix|] == [c] + text[..|prefix| - 1];
      assert prefix == [prefix[0]] + prefix[1..];
    }
  }

  lemma KindOfRendered(l: DiffLine)
    ensures HunkHeader(LineText(l)) == None
    ensures KindOf(LineText(l)) ==
            match l
            case Context(_) => Counts
            case Added(text) => if StartsWith(text, "++") then Counts else Adds
            case Removed(text) => if StartsWith(text, "--") then Counts else Removes
            case NoNewline(_) => Skips
  {
    hide StartsWith, NumberPair;
    var c := LineText(l)[0];
    assert LineText(l) == [c] + l.text;
    StartsWithCons(c, l.text, "@@ -");
    StartsWithCons(c, l.text, "+");
    StartsWithCons(c, l.text, "+++");
    StartsWithCons(c, l.text, "-");
    StartsWithCons(c, l.text, "---");
    StartsWithCons(c, l.text, "\\");
    assert "+"[1..] == "" && "-"[1..] == "" && "\\"[1..] == "" && "+++"[1..] == "++" && "---"[1..] == "--";
  }

  lemma {:induction false} RecordedFrom(lines: seq<DiffLine>, n: nat)
    ensures forall t :: t in Recorded(lines, n) ==> n <= t
  {
    hide KindOf;
    if lines != [] {
      RecordedFrom(lines[1..], n);
      RecordedFrom(lines[1..], n + 1);
    }
  }

  lemma {:induction false} TrueLinesWithin(lines: seq<DiffLine>, n: nat)
    ensures forall t :: t in TrueLines(lines, n) ==> n <= t < n + NewLength(lines)
  {
    if lines != [] {
      TrueLinesWithin(lines[1..], n);
      TrueLinesWithin(lines[1..], n + 1);
    }
  }

  lemma {:induction false} NothingAdded(lines: seq<DiffLine>, n: nat, m: nat)
    requires !HasAdded(lines)
    ensures TrueLines(lines, n) == {} && Recorded(lines, m) == {}
  {
    hide KindOf;
    if lines != [] {
      KindOfRendered(lines[0]);
      assert !lines[0].Added?;
      assert forall i :: 0 <= i < |lines[1..]| ==> lines[1..][i] == lines[i + 1];
      NothingAdded(lines[1..], n, m);
      NothingAdded(lines[1..], n + 1, m + 1);
      NothingAdded(lines[1..], n, m + 1);
    }
  }

  lemma {:induction false} ReadableIsExact(lines: seq<DiffLine>, n: nat)
    requires Readable(lines)
    ensures Recorded(lines, n) == TrueLines(lines, n)
  {
    hide KindOf;
    if lines != [] {
      KindOfRendered(lines[0]);
      if lines[0].Removed? && StartsWith(lines[0].text, "--") {
        NothingAdded(lines[1..], n, n + 1);
      } else {
        ReadableIsExact(lines[1..], n);
        ReadableIsExact(lines[1..], n + 1);
      }
    }
  }

  /** With the counter ahead, the next added line is recorded too late. */
  lemma {:induction false} AheadMisses(lines: seq<DiffLine>, n: nat, m: nat) returns (t: nat)
    requires HasAdded(lines) && n < m
    ensures t in TrueLines(lines, n) && t !in Recorded(lines, m)
  {
    hide KindOf;
    KindOfRendered(lines[0]);
    RecordedFrom(lines, m);
    if lines[0].Added? {
      t := n;
    } else {
      var i :| 0 <= i < |lines| && lines[i].Added?;
      assert lines[1..][i - 1].Added?;
      var ahead := if KindOf(LineText(lines[0])).Counts? then m + 1 else m;
      t := AheadMisses(lines[1..], if lines[0].Context? then n + 1 else n, ahead);
    }
  }

  /** The first line that is not readable costs a number. */
  lemma {:induction false} UnreadableMisses(lines: seq<DiffLine>, n: nat) returns (t: nat)
    requires !Readable(lines)
    ensures t in TrueLines(lines, n) && t !in Recorded(lines, n)
  {
    hide KindOf;
    var l := lines[0];
    KindOfRendered(l);
    RecordedFrom(lines[1..], n + 1);
    if l.Added? && StartsWith(l.text, "++") {
      t := n;
    } else if l.Removed? && StartsWith(l.text, "--") && HasAdded(lines[1..]) {
      t := AheadMisses(lines[1..], n, n + 1);
    } else if l.Removed? && StartsWith(l.text, "--") {
      NothingAddedIsReadable(lines[1..]);
    } else {
      t := UnreadableMisses(lines[1..], if l.Added? || l.Context? then n + 1 else n);
      TrueLinesWithin(lines[1..], if l.Added? || l.Context? then n + 1 else n);
    }
  }

  lemma {:induction false} NothingAddedIsReadable(lines: seq<DiffLine>)
    requires !HasAdded(lines)
    ensures Readable(lines)
  {
    if lines != [] {
      assert !lines[0].Added?;
      assert forall i :: 0 <= i < |lines[1..]| ==> lines[1..][i] == lines[i + 1];
      NothingAddedIsReadable(lines[1..]);
    }
  }

  lemma {:induction false} LaterHunksAreLater(hunks: seq<Hunk>, from: nat)
    requires InOrder(hunks, from)
    ensures forall t :: t in AllRecorded(hunks) ==> from <= t
  {
    if hunks != [] {
      var h := hunks[0];
      RecordedFrom(h.lines, h.newStart);
      if NewLength(h.lines) == 0 {
        CoversNothing(h.lines);
        NothingAdded(h.lines, h.newStart, h.newStart);
        LaterHunksAreLater(hunks[1..], from);
      } else {
        LaterHunksAreLater(hunks[1..], h.newStart + NewLength(h.lines));
      }
    }
  }

  lemma {:induction false} CoversNothing(lines: seq<DiffLine>)
    requires NewLength(lines) == 0
    ensures !HasAdded(lines)
  {
    if lines != [] {
      CoversNothing(lines[1..]);
      assert forall i :: 1 <= i < |lines| ==> lines[i] == lines[1..][i - 1];
    }
  }

  /** Over all hunks: what is recorded is right exactly when every hunk is readable. */
  lemma {:induction false} ExactIffReadable(hunks: seq<Hunk>, from: nat)
    requires InOrder(hunks, from)
    ensures AllReadable(hunks) ==> AllRecorded(hunks) == TrueAdded(hunks)
    ensures !AllReadable(hunks) ==> exists t :: from <= t && t in TrueAdded(hunks) && t !in AllRecorded(hunks)
  {
    hide Readable, InOrder;
    if hunks != [] {
      var h, rest := hunks[0], hunks[1..];
      assert AllReadable(hunks) <==> Readable(h.lines) && AllReadable(rest) by { FirstAndRest(hunks); }
      TrueLinesWithin(h.lines, h.newStart);
      if NewLength(h.lines) == 0 {
        CoversNothing(h.lines);
        NothingAdded(h.lines, h.newStart, h.newStart);
        NothingAddedIsReadable(h.lines);
        OrderOfRest(hunks, from);
        ExactIffReadable(rest, from);
        if !AllReadable(rest) {
          var t :| from <= t && t in TrueAdded(rest) && t !in AllRecorded(rest);
          assert t in TrueAdded(hunks) && t !in AllRecorded(hunks);
        }
      } else {
        OrderOfRest(hunks, from);
        var next := h.newStart + NewLength(h.lines);
        ExactIffReadable(rest, next);
        LaterHunksAreLater(rest, next);
        if !AllReadable(rest) && Readable(h.lines) {
          var t :| next <= t && t in TrueAdded(rest) && t !in AllRecorded(rest);
          ReadableIsExact(h.lines, h.newStart);
          assert t in TrueAdded(hunks) && t !in AllRecorded(hunks);
        }
        if Readable(h.lines) {
          ReadableIsExact(h.lines, h.newStart);
        } else {
          var t := UnreadableMisses(h.lines, h.newStart);
          assert t in TrueAdded(hunks) && t !in AllRecorded(hunks);
        }
      }
    }
  }

  lemma FirstAndRest(hunks: seq<Hunk>)
    requires hunks != []
    ensures AllReadable(hunks) <==> Readable(hunks[0].lines) && AllReadable(hunks[1..])
  {
    hide Readable;
    assert forall i :: 1 <= i < |hunks| ==> hunks[i] == hunks[1..][i - 1];
  }

  lemma OrderOfRest(hunks: seq<Hunk>, from: nat)
    requires hunks != [] && InOrder(hunks, from)
    ensures var h := hunks[0];
            if NewLength(h.lines) == 0 then InOrder(hunks[1..], from)
            else from <= h.newStart && InOrder(hunks[1..], h.newStart + NewLength(h.lines))
  {
  }

  // ----- the text -----

  lemma AfterCountText(count: Option<nat>, rest: string)
    requires rest != "" && rest[0] == ' '
    ensures AfterCount(CountText(count) + rest) == rest
  {
    hide Digits, DigitRun;
    if count.None? {
      assert CountText(count) + rest == rest;
    } else {
      var d := Digits(count.value);
      var s := "," + d + rest;
      assert CountText(count) + rest == s;
      assert s[0] == ',' && s[1..] == d + rest && s[1 + |d|..] == rest;
      DigitRunIsThePrefix(d, rest);
    }
  }

  lemma PairRoundTrip(start: nat, count: Option<nat>, rest: string)
    requires rest != "" && rest[0] == ' '
    ensures NumberPair(Digits(start) + CountText(count) + rest) == Some((start, rest))
  {
    hide Digits, ToNat, DigitRun, AfterCount;
    var d, tail := Digits(start), CountText(count) + rest;
    var s := d + tail;
    assert s == Digits(start) + CountText(count) + rest;
    assert s[..|d|] == d && s[|d|..] == tail;
    assert tail[0] == ',' || tail[0] == ' ';
    DigitRunIsThePrefix(d, tail);
    ToNatOfDigits(start);
    AfterCountText(count, rest);
  }

  lemma HeaderRoundTrip(h: Hunk)
    ensures HunkHeader(HeaderText(h)) == Some(h.newStart)
  {
    hide NumberPair, Digits;
    var afterNew := " @@" + h.section;
    var newPart := Digits(h.newStart) + CountText(h.newCount) + afterNew;
    var afterOld := " +" + newPart;
    var oldPart := Digits(h.oldStart) + CountText(h.oldCount) + afterOld;
    PairRoundTrip(h.oldStart, h.oldCount, afterOld);
    PairRoundTrip(h.newStart, h.newCount, afterNew);
    assert HeaderText(h)[..4] == "@@ -" && HeaderText(h)[4..] == oldPart;
    assert afterOld[..2] == " +" && afterOld[2..] == newPart;
    assert afterNew[..3] == " @@";
  }

  lemma {:induction false} ScanBody(lines: seq<DiffLine>, n: nat, rest: seq<string>)
    requires rest == [] || HunkHeader(rest[0]).Some?
    ensures Scan(BodyTexts(lines) + rest, n, true) == Recorded(lines, n) + Scan(rest, 0, true)
  {
    hide KindOf, HunkHeader;
    if lines == [] {
      assert BodyTexts(lines) + rest == rest;
    } else {
      KindOfRendered(lines[0]);
      assert (BodyTexts(lines) + rest)[1..] == BodyTexts(lines[1..]) + rest;
      ScanBody(lines[1..], n, rest);
      ScanBody(lines[1..], n + 1, rest);
    }
  }

  lemma {:induction false} ScanHunks(hunks: seq<Hunk>, n: nat, inHunk: bool)
    ensures Scan(HunkTexts(hunks), n, inHunk) == AllRecorded(hunks)
  {
    hide KindOf, HunkHeader, Scan, HunkTexts, BodyTexts;
    if hunks == [] {
      NoTexts(n, inHunk);
    } else {
      var h, rest := hunks[0], HunkTexts(hunks[1..]);
      HeaderRoundTrip(h);
      TextsOf(hunks);
      ScanHeader(HeaderText(h), BodyTexts(h.lines) + rest, n, inHunk);
      if |hunks| > 1 {
        HeaderRoundTrip(hunks[1]);
        TextsOf(hunks[1..]);
      } else {
        NoTexts(n, inHunk);
      }
      ScanBody(h.lines, h.newStart, rest);
      ScanHunks(hunks[1..], 0, true);
    }
  }

  lemma NoTexts(n: nat, inHunk: bool)
    ensures HunkTexts([]) == [] && Scan([], n, inHunk) == {}
  {
  }

  lemma TextsOf(hunks: seq<Hunk>)
    requires hunks != []
    ensures HunkTexts(hunks) == [HeaderText(hunks[0])] + (BodyTexts(hunks[0].lines) + HunkTexts(hunks[1..]))
  {
  }

  lemma ScanHeader(line: string, rest: seq<string>, n: nat, inHunk: bool)
    requires HunkHeader(line).Some?
    ensures Scan([line] + rest, n, inHunk) == Scan(rest, HunkHeader(line).value, true)
  {
    hide HunkHeader;
    assert ([line] + rest)[1..] == rest;
  }

  /** The lines git prints before the first hunk hold no hunk header. */
  lemma {:induction false} ScanPreamble(preamble: seq<string>, hunks: seq<Hunk>)
    requires forall i :: 0 <= i < |preamble| ==> HunkHeader(preamble[i]).None?
    ensures Scan(preamble + HunkTexts(hunks), 0, false) == AllRecorded(hunks)
  {
    hide KindOf, HunkHeader;
    if preamble == [] {
      assert preamble + HunkTexts(hunks) == HunkTexts(hunks);
      ScanHunks(hunks, 0, false);
    } else {
      assert (preamble + HunkTexts(hunks))[1..] == preamble[1..] + HunkTexts(hunks);
      ScanPreamble(preamble[1..], hunks);
    }
  }

  /** A removed line that itself starts with `--`, say a SQL comment, moves the next added
      line: the reader reports line 2 where line 1 was added. */
  lemma RemovedDashesAreMiscounted()
    ensures var hunks := [Hunk(1, None, 1, None, "", [Removed("-- old"), Added("new")])];
            InOrder(hunks, 0) && TrueAdded(hunks) == {1} && AllRecorded(hunks) == {2} && !AllReadable(hunks)
  {
    var lines := [Removed("-- old"), Added("new")];
    var hunks := [Hunk(1, None, 1, None, "", lines)];
    assert lines[1..] == [Added("new")] && lines[1..][0].Added?;
    assert "-- old"[..2] == "--" && "new"[..2] == "ne";
    assert StartsWith(lines[0].text, "--") && !StartsWith(lines[1].text, "++");
    KindOfRendered(lines[0]);
    KindOfRendered(lines[1]);
    assert hunks[1..] == [] && [Added("new")][1..] == [];
    assert Recorded([Added("new")], 2) == {2} && TrueLines([Added("new")], 1) == {1};
    assert NewLength([Added("new")]) == 1 && NewLength(lines) == 1;
    assert !Readable(hunks[0].lines);
  }
}
