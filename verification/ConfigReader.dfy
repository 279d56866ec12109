/** The reader as it runs: a stack of live dicts, each a heap object that its parent already
    refers to, filled line by line. It is proved to build the tree that `ConfigText.Read`
    describes, error line included. */
module ConfigReader {
  import opened Json
  import opened ConfigText

  datatype Slot = Scalar(value: Value) | Nested(dict: Dict)

  class Dict {
    var entries: seq<Field<Slot>>

    constructor ()
      ensures entries == []
    {
      entries := [];
    }
  }

  // ----- what the heap stands for -----

  /** `d` and everything below it hold exactly these fields; all these dicts are in `done`. */
  ghost predicate Holds(d: Dict, fields: seq<Field<Value>>, done: set<Dict>)
    reads done
    decreases fields, 0
  {
    && d in done && |d.entries| == |fields|
    && forall i :: 0 <= i < |fields| ==>
         d.entries[i].key == fields[i].key && SlotHolds(d.entries[i].value, fields[i].value, done)
  }

  ghost predicate SlotHolds(slot: Slot, v: Value, done: set<Dict>)
    reads done
    decreases v, 1
  {
    match slot
    case Scalar(u) => u == v
    case Nested(d) => v.Obj? && Holds(d, v.fields, done)
  }

  /** A dict on the stack refers to the next one under the key it was opened with. */
  datatype Hole = NoHole | At(key: string, child: Dict)

  ghost predicate SlotAgrees(slot: Slot, f: Field<Value>, done: set<Dict>, hole: Hole)
    reads done
  {
    if hole.At? && f.key == hole.key then slot == Nested(hole.child) && f.value == Obj([])
    else SlotHolds(slot, f.value, done)
  }

  ghost predicate Agrees(d: Dict, fields: seq<Field<Value>>, done: set<Dict>, hole: Hole)
    reads d, done
  {
    && |d.entries| == |fields| && UniqueKeys(fields)
    && (hole.At? ==> HasKey(fields, hole.key))
    && forall i :: 0 <= i < |fields| ==>
         d.entries[i].key == fields[i].key && SlotAgrees(d.entries[i].value, fields[i], done, hole)
  }

  ghost function HoleAbove(dicts: seq<Dict>, frames: seq<Frame>, k: nat): Hole
    requires |dicts| == |frames| && k < |dicts|
  {
    if k + 1 < |dicts| then At(frames[k + 1].key, dicts[k + 1]) else NoHole
  }

  /** The live dicts against the stack of the specification. */
  ghost predicate Live(dicts: seq<Dict>, frames: seq<Frame>, done: set<Dict>)
    reads dicts, done
  {
    && |dicts| == |frames| && dicts != []
    && (forall i, j :: 0 <= i < j < |dicts| ==> dicts[i] != dicts[j])
    && (forall i :: 0 <= i < |dicts| ==> dicts[i] !in done)
    && forall k :: 0 <= k < |dicts| ==> Agrees(dicts[k], frames[k].fields, done, HoleAbove(dicts, frames, k))
  }

  /** A dict stands for one tree only. */
  lemma {:induction false} HoldsOneTree(d: Dict, a: seq<Field<Value>>, b: seq<Field<Value>>, done: set<Dict>)
    requires Holds(d, a, done) && Holds(d, b, done)
    ensures a == b
    decreases a
  {
    forall i | 0 <= i < |a| ensures a[i] == b[i] {
      var slot := d.entries[i].value;
      assert SlotHolds(slot, a[i].value, done) && SlotHolds(slot, b[i].value, done);
      if slot.Nested? { HoldsOneTree(slot.dict, a[i].value.fields, b[i].value.fields, done); }
    }
  }

  // ----- Put, seen from outside -----

  function KeyIndex<V>(fields: seq<Field<V>>, key: string): (k: nat)
    ensures k <= |fields| && (k < |fields| ==> fields[k].key == key)
    ensures forall i :: 0 <= i < k ==> fields[i].key != key
  {
    if fields == [] || fields[0].key == key then 0 else 1 + KeyIndex(fields[1..], key)
  }

  lemma {:induction false} PutShape<V>(fields: seq<Field<V>>, key: string, v: V)
    ensures var k := KeyIndex(fields, key);
            Put(fields, key, v) == if k < |fields| then fields[k := Field(key, v)] else fields + [Field(key, v)]
  {
    if fields != [] && fields[0].key != key {
      PutShape(fields[1..], key, v);
      var k := KeyIndex(fields[1..], key);
      assert KeyIndex(fields, key) == k + 1;
      assert fields == [fields[0]] + fields[1..];
      if k < |fields[1..]| { assert fields[k + 1 := Field(key, v)] == [fields[0]] + fields[1..][k := Field(key, v)]; }
    }
  }

  lemma {:induction false} SameKeyIndex<V, W>(a: seq<Field<V>>, b: seq<Field<W>>, key: string)
    requires |a| == |b| && forall i :: 0 <= i < |a| ==> a[i].key == b[i].key
    ensures KeyIndex(a, key) == KeyIndex(b, key)
  {
    if a != [] && a[0].key != key { SameKeyIndex(a[1..], b[1..], key); }
  }

  // ----- steps -----

  lemma {:induction false} HoldsMore(d: Dict, fields: seq<Field<Value>>, done: set<Dict>, more: set<Dict>)
    requires Holds(d, fields, done) && done <= more
    ensures Holds(d, fields, more)
    decreases fields, 0
  {
    forall i | 0 <= i < |fields| ensures SlotHolds(d.entries[i].value, fields[i].value, more) {
      SlotHoldsMore(d.entries[i].value, fields[i].value, done, more);
    }
  }

  lemma {:induction false} SlotHoldsMore(slot: Slot, v: Value, done: set<Dict>, more: set<Dict>)
    requires SlotHolds(slot, v, done) && done <= more
    ensures SlotHolds(slot, v, more)
    decreases v, 1
  {
    if slot.Nested? { HoldsMore(slot.dict, v.fields, done, more); }
  }

  lemma AgreesMore(d: Dict, fields: seq<Field<Value>>, done: set<Dict>, more: set<Dict>, hole: Hole)
    requires Agrees(d, fields, done, hole) && done <= more
    ensures Agrees(d, fields, more, hole)
  {
    forall i | 0 <= i < |fields| ensures SlotAgrees(d.entries[i].value, fields[i], more, hole) {
      if !(hole.At? && fields[i].key == hole.key) {
        SlotHoldsMore(d.entries[i].value, fields[i].value, done, more);
      }
    }
  }

  /** A finished dict holds what its frame says. */
  lemma TopHolds(d: Dict, fields: seq<Field<Value>>, done: set<Dict>)
    requires Agrees(d, fields, done, NoHole)
    ensures Holds(d, fields, done + {d})
  {
    AgreesMore(d, fields, done, done + {d}, NoHole);
    forall i | 0 <= i < |fields| ensures SlotHolds(d.entries[i].value, fields[i].value, done + {d}) {
      assert SlotAgrees(d.entries[i].value, fields[i], done + {d}, NoHole);
    }
  }

  /** Its parent then agrees with the frame that shows the final contents. */
  lemma ParentAgrees(parent: Dict, fields: seq<Field<Value>>, done: set<Dict>, key: string, child: Dict,
                     sub: seq<Field<Value>>)
    requires Agrees(parent, fields, done, At(key, child)) && Holds(child, sub, done)
    ensures Agrees(parent, Put(fields, key, Obj(sub)), done, NoHole)
  {
    PutShape(fields, key, Obj(sub));
    var fields' := Put(fields, key, Obj(sub));
    forall i | 0 <= i < |fields'|
      ensures parent.entries[i].key == fields'[i].key && SlotAgrees(parent.entries[i].value, fields'[i], done, NoHole)
    {
      assert SlotAgrees(parent.entries[i].value, fields[i], done, At(key, child));
    }
  }

  /** `stack.pop()` changes no dict. */
  lemma PopIsLive(dicts: seq<Dict>, frames: seq<Frame>, done: set<Dict>)
    requires Live(dicts, frames, done) && |dicts| > 1
    ensures Live(dicts[..|dicts| - 1], PopTop(frames), done + {dicts[|dicts| - 1]})
  {
    hide Agrees, Put;
    var n := |dicts| - 1;
    var done', frames', dicts' := done + {dicts[n]}, PopTop(frames), dicts[..n];
    assert HoleAbove(dicts, frames, n) == NoHole;
    TopHolds(dicts[n], frames[n].fields, done);
    forall k | 0 <= k < n ensures Agrees(dicts'[k], frames'[k].fields, done', HoleAbove(dicts', frames', k)) {
      AgreesMore(dicts[k], frames[k].fields, done, done', HoleAbove(dicts, frames, k));
      if k == n - 1 {
        ParentAgrees(dicts[k], frames[k].fields, done', frames[n].key, dicts[n], frames[n].fields);
      } else {
        assert HoleAbove(dicts', frames', k) == HoleAbove(dicts, frames, k);
      }
    }
  }

  /** `parent[key] = value` on the dict on top. A nested dict leaves the hole open. */
  method SetKey(dicts: seq<Dict>, ghost frames: seq<Frame>, ghost done: set<Dict>, key: string, slot: Slot,
                ghost v: Value)
    requires Live(dicts, frames, done)
    requires slot == Scalar(v) || (slot.Nested? && v == Obj([]))
    modifies dicts[|dicts| - 1]
    ensures SetUpTo(dicts, frames, done, key, v, if slot.Nested? then At(key, slot.dict) else NoHole)
  {
    hide Put;
    var parent := dicts[|dicts| - 1];
    ghost var fields := Top(frames).fields;
    ghost var before := parent.entries;
    assert HoleAbove(dicts, frames, |dicts| - 1) == NoHole;
    assert Agrees(parent, fields, done, NoHole);
    forall i | 0 <= i < |fields| ensures SlotHolds(before[i].value, fields[i].value, done) {
      assert SlotAgrees(before[i].value, fields[i], done, NoHole);
    }
    parent.entries := Put(parent.entries, key, slot);
    PutShape(before, key, slot);
    PutShape(fields, key, v);
    SameKeyIndex(before, fields, key);
    TopAgrees(parent, before, fields, done, key, slot, v);
  }

  lemma TopAgrees(parent: Dict, before: seq<Field<Slot>>, fields: seq<Field<Value>>, done: set<Dict>,
                  key: string, slot: Slot, v: Value)
    requires |before| == |fields| && UniqueKeys(fields)
    requires forall i :: 0 <= i < |fields| ==>
               before[i].key == fields[i].key && SlotHolds(before[i].value, fields[i].value, done)
    requires parent.entries == Put(before, key, slot)
    requires slot == Scalar(v) || (slot.Nested? && v == Obj([]))
    ensures Agrees(parent, Put(fields, key, v), done, if slot.Nested? then At(key, slot.dict) else NoHole)
  {
    hide Put, Holds;
    PutShape(before, key, slot);
    PutShape(fields, key, v);
    SameKeyIndex(before, fields, key);
    var k := KeyIndex(fields, key);
    assert Put(fields, key, v)[k].key == key;
  }

  /** Every dict but the top one as before, and the top one with its new entry. */
  ghost predicate SetUpTo(dicts: seq<Dict>, frames: seq<Frame>, done: set<Dict>, key: string, v: Value, hole: Hole)
    requires |dicts| == |frames| && dicts != []
    reads dicts, done
  {
    var n := |dicts| - 1;
    && (forall i, j :: 0 <= i < j <= n ==> dicts[i] != dicts[j])
    && (forall i :: 0 <= i <= n ==> dicts[i] !in done)
    && (forall k :: 0 <= k < n ==> Agrees(dicts[k], frames[k].fields, done, HoleAbove(dicts, frames, k)))
    && Agrees(dicts[n], Put(frames[n].fields, key, v), done, hole)
  }

  lemma SetIsLive(dicts: seq<Dict>, frames: seq<Frame>, done: set<Dict>, key: string, v: Value)
    requires |dicts| == |frames| && dicts != [] && SetUpTo(dicts, frames, done, key, v, NoHole)
    ensures Live(dicts, SetTop(frames, key, v), done)
  {
    hide Agrees, Put;
    var frames' := SetTop(frames, key, v);
    forall k | 0 <= k < |dicts| ensures Agrees(dicts[k], frames'[k].fields, done, HoleAbove(dicts, frames', k)) {
      assert k + 1 < |dicts| ==> HoleAbove(dicts, frames', k) == HoleAbove(dicts, frames, k);
    }
  }

  lemma OpenIsLive(dicts: seq<Dict>, frames: seq<Frame>, done: set<Dict>, key: string, indent: int, child: Dict)
    requires |dicts| == |frames| && dicts != []
    requires SetUpTo(dicts, frames, done, key, Obj([]), At(key, child))
    requires child !in dicts && child !in done && child.entries == []
    ensures Live(dicts + [child], SetTop(frames, key, Obj([])) + [Frame(indent, key, [])], done)
  {
    EmptyAgrees(child, done);
    hide Agrees, Put;
    var frames', dicts' := SetTop(frames, key, Obj([])) + [Frame(indent, key, [])], dicts + [child];
    forall k | 0 <= k < |dicts'| ensures Agrees(dicts'[k], frames'[k].fields, done, HoleAbove(dicts', frames', k)) {
      assert k + 1 < |dicts| ==> HoleAbove(dicts', frames', k) == HoleAbove(dicts, frames, k);
    }
  }

  lemma EmptyAgrees(d: Dict, done: set<Dict>)
    requires d.entries == []
    ensures Agrees(d, [], done, NoHole)
  {
  }

  lemma RootIsLive(root: Dict)
    requires root.entries == []
    ensures Live([root], [ROOT], {})
  {
  }

  ghost function AsSet(dicts: seq<Dict>): set<Dict> { set d | d in dicts }

  /** The stack variable of the reader, pairs of indentation and dict. */
  ghost predicate Mirrors(stack: seq<(int, Dict)>, dicts: seq<Dict>, frames: seq<Frame>) {
    && |stack| == |dicts| == |frames| && stack != [] && frames[0].indent == -1
    && forall k :: 0 <= k < |stack| ==> stack[k] == (frames[k].indent, dicts[k])
  }

  ghost predicate Tracks(stack: seq<(int, Dict)>, dicts: seq<Dict>, frames: seq<Frame>, done: set<Dict>)
    reads dicts, done
  {
    Mirrors(stack, dicts, frames) && Live(dicts, frames, done)
  }

  lemma MirrorSet(stack: seq<(int, Dict)>, dicts: seq<Dict>, frames: seq<Frame>, key: string, v: Value)
    requires Mirrors(stack, dicts, frames)
    ensures Mirrors(stack, dicts, SetTop(frames, key, v))
  {
    hide Put;
  }

  lemma PopTracks(stack: seq<(int, Dict)>, dicts: seq<Dict>, frames: seq<Frame>, done: set<Dict>)
    requires Tracks(stack, dicts, frames, done) && |stack| > 1
    ensures var n := |stack| - 1;
            Tracks(stack[..n], dicts[..n], PopTop(frames), done + {dicts[n]})
  {
    PopIsLive(dicts, frames, done);
    hide Live, Put;
  }

  /** `while indentation <= stack[-1][0]: stack.pop()`. The root's indentation of -1 keeps
      the stack from running empty, so the error for that case cannot arise. */
  method PopTo(stack: seq<(int, Dict)>, indent: nat, ghost dicts: seq<Dict>, ghost frames: seq<Frame>,
               ghost done: set<Dict>)
    returns (stack': seq<(int, Dict)>, ghost dicts': seq<Dict>, ghost done': set<Dict>)
    requires Tracks(stack, dicts, frames, done)
    ensures Tracks(stack', dicts', CloseTo(frames, indent), done')
    ensures dicts' <= dicts && dicts'[0] == dicts[0]
    ensures done' <= done + AsSet(dicts)
  {
    hide Live, PopTop;
    stack', dicts', done' := stack, dicts, done;
    ghost var frames' := frames;
    while indent <= stack'[|stack'| - 1].0
      invariant Tracks(stack', dicts', frames', done')
      invariant frames' != [] && CloseTo(frames', indent) == CloseTo(frames, indent)
      invariant |dicts'| == |stack'| && dicts' <= dicts
      invariant done' <= done + AsSet(dicts)
      decreases |stack'|
    {
      PopTracks(stack', dicts', frames', done');
      done' := done' + {dicts'[|dicts'| - 1]};
      frames', dicts' := PopTop(frames'), dicts'[..|dicts'| - 1];
      stack' := stack'[..|stack'| - 1];
    }
  }

  /** What the root dict holds in the end, though nothing pops the stack any more. */
  lemma {:induction false} FinishIsLive(dicts: seq<Dict>, frames: seq<Frame>, done: set<Dict>)
    returns (done': set<Dict>)
    requires Live(dicts, frames, done)
    ensures Holds(dicts[0], Finish(frames), done')
    decreases |dicts|
  {
    if |dicts| == 1 {
      assert HoleAbove(dicts, frames, 0) == NoHole;
      TopHolds(dicts[0], frames[0].fields, done);
      done' := done + {dicts[0]};
    } else {
      PopIsLive(dicts, frames, done);
      done' := FinishIsLive(dicts[..|dicts| - 1], PopTop(frames), done + {dicts[|dicts| - 1]});
    }
  }

  /** The two ways an entry changes the live mappings. */
  method ApplyEntry(stack: seq<(int, Dict)>, line: Line, ghost dicts: seq<Dict>, ghost frames: seq<Frame>,
                    ghost done: set<Dict>)
    returns (stack': seq<(int, Dict)>, ghost dicts': seq<Dict>, ghost done': set<Dict>)
    requires Tracks(stack, dicts, frames, done) && (line.Opens? || line.Sets?)
    modifies AsSet(dicts)
    ensures Tracks(stack', dicts', Apply(frames, line), done')
    ensures dicts'[0] == dicts[0] && fresh(done' + AsSet(dicts') - (done + AsSet(dicts)))
  {
    hide Live, SetTop, SetUpTo;
    stack', dicts', done' := PopTo(stack, line.indent, dicts, frames, done);
    ghost var frames' := CloseTo(frames, line.indent);
    var live := seq(|stack'|, i requires 0 <= i < |stack'| => stack'[i].1);
    assert live == dicts';
    MirrorSet(stack', dicts', frames', line.key, if line.Sets? then line.value else Obj([]));
    if line.Opens? {
      var child := new Dict();
      SetKey(live, frames', done', line.key, Nested(child), Obj([]));
      OpenIsLive(live, frames', done', line.key, line.indent, child);
      stack' := stack' + [(line.indent, child)];
      dicts' := dicts' + [child];
    } else {
      SetKey(live, frames', done', line.key, Scalar(line.value), line.value);
      SetIsLive(live, frames', done', line.key, line.value);
    }
  }

  /** `_read_project_config_payload`. The result is the root dict; `done` lists every dict
      that hangs below it. */
  method ReadPayload(text: string) returns (r: Outcome<Dict>, ghost done: set<Dict>)
    ensures Read(text).Error? ==> r == Error(Read(text).line, Read(text).problem)
    ensures Read(text).Ok? ==> r.Ok? && fresh(r.value) && Holds(r.value, Read(text).value, done)
  {
    hide Live, ParseLine, SetTop, CloseTo, SplitLines;
    var root := new Dict();
    var lines := SplitLines(text);
    var stack: seq<(int, Dict)> := [(-1, root)];
    var number := 1;
    done := {};
    ghost var frames, dicts := [ROOT], [root];
    RootIsLive(root);
    assert lines[0..] == lines;
    while number <= |lines|
      invariant 1 <= number <= |lines| + 1
      invariant Tracks(stack, dicts, frames, done) && dicts[0] == root
      invariant fresh(done + AsSet(dicts))
      invariant ReadLines(lines, 1, [ROOT]) == ReadLines(lines[number - 1..], number, frames)
    {
      var line := ParseLine(lines[number - 1]);
      assert lines[number - 1..][1..] == lines[number..];
      if line.Bad? {
        r := Error(number, line.problem);
        return;
      }
      if !line.Blank? {
        stack, dicts, done := ApplyEntry(stack, line, dicts, frames, done);
      }
      frames := Apply(frames, line);
      number := number + 1;
    }
    done := FinishIsLive(dicts, frames, done);
    r := Ok(root);
  }
}
