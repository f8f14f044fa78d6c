// A whole rollback: the rewritten manifest reads back as the new state, lines
// that are not the image's or the annotations' stay, and so every sequence of
// rollbacks of the file is one of the state machine.
// Source: cmd/pokkum/rollback.go, runRollback, injectAnnotation.

module RollbackProofs {
  import opened Text
  import opened RollbackHistory
  import opened Manifest
  import opened ManifestProofs

  // ---- Lists of lines -----------------------------------------------------------------

  lemma {:induction false} FirstAppend(a: seq<Line>, b: seq<Line>, k: Key)
    ensures First(a + b, k) == if First(a, k).Some? then First(a, k) else First(b, k)
  {
    hide Spanned;
    if a == [] {
      assert a + b == b;
    } else {
      assert (a + b)[1..] == a[1..] + b;
      FirstAppend(a[1..], b, k);
    }
  }

  lemma {:induction false} ReplaceAllReadsBack(lines: seq<Line>, k: Key, value: string)
    requires First(lines, k).Some? && !k.Annotations? && !k.Metadata? && Fits(k, value)
    ensures First(ReplaceAll(lines, k, Shown(k, value)), k) == Some(value)
  {
    hide Spanned, Shown, Fits;
    if Spanned(lines[0], k).Some? {
      ReplacedReadsBack(lines[0], k, value);
    } else {
      ReplaceAllReadsBack(lines[1..], k, value);
    }
  }

  lemma {:induction false} ReplaceAllKeepsOthers(lines: seq<Line>, k: Key, text: string, other: Key)
    requires other != k && text != [] && !IsSpace(text[0])
    ensures First(ReplaceAll(lines, k, text), other) == First(lines, other)
    ensures Anchor(ReplaceAll(lines, k, text), other) == Anchor(lines, other)
  {
    hide Spanned, Opens, Replaced;
    if lines != [] {
      OtherKeysKept(lines[0], k, text, other);
      ReplaceAllKeepsOthers(lines[1..], k, text, other);
    }
  }

  predicate HasAnchor(lines: seq<Line>)
  {
    Anchor(lines, Annotations).Some? || Anchor(lines, Metadata).Some?
  }

  lemma IndentIsSpace(line: Line)
    ensures forall i | 0 <= i < |Indent(line)| :: IsSpace(Indent(line)[i])
  {
  }

  // Lines that start with one key hold no other's match.
  lemma OtherLinesSilent(block: seq<Line>, own: Key, other: Key)
    requires own != other
    requires forall l | l in block :: KeyEnd(l, own).Some? || KeyEnd(l, Annotations).Some?
    requires other != Annotations
    ensures First(block, other).None?
  {
    hide KeyEnd;
    if block != [] {
      assert block[0] in block && forall l | l in block[1..] :: l in block;
      if KeyEnd(block[0], own).Some? {
        OneKey(block[0], own, other);
      } else {
        OneKey(block[0], Annotations, other);
      }
      OtherLinesSilent(block[1..], own, other);
    }
  }

  // What an injection puts in, and where.
  function Block(lines: seq<Line>, k: Key, value: string): seq<Line>
  {
    match Anchor(lines, Annotations)
    case Some(i) => [AnnotationLine(Indent(lines[i]), k, value)]
    case None =>
      match Anchor(lines, Metadata)
      case Some(i) => [Indent(lines[i]) + KeyText(Annotations), AnnotationLine(Indent(lines[i]) + [' ', ' '], k, value)]
      case None => []
  }

  function Place(lines: seq<Line>): (n: nat)
    ensures n <= |lines|
  {
    if Anchor(lines, Annotations).Some? then Anchor(lines, Annotations).value + 1
    else if Anchor(lines, Metadata).Some? then Anchor(lines, Metadata).value + 1
    else 0
  }

  lemma InjectedAtPlace(lines: seq<Line>, k: Key, value: string)
    ensures Injected(lines, k, value) == lines[..Place(lines)] + Block(lines, k, value) + lines[Place(lines)..]
  {
    hide Opens, AnnotationLine, KeyText;
  }

  lemma BlockReads(lines: seq<Line>, k: Key, value: string)
    requires HasAnchor(lines) && (k.Previous? || k.History?) && Fits(k, value)
    ensures First(Block(lines, k, value), k) == Some(value)
    ensures forall l | l in Block(lines, k, value) :: KeyEnd(l, k).Some? || KeyEnd(l, Annotations).Some?
    ensures forall l | l in Block(lines, k, value) :: KeyEnd(l, k).Some? || Anchor(lines, Annotations).None?
  {
    hide Spanned, KeyText, AnnotationLine, Fits;
    if Anchor(lines, Annotations).Some? {
      var indent := Indent(lines[Anchor(lines, Annotations).value]);
      IndentIsSpace(lines[Anchor(lines, Annotations).value]);
      InjectedReadsBack(indent, k, value);
    } else {
      var indent := Indent(lines[Anchor(lines, Metadata).value]);
      IndentIsSpace(lines[Anchor(lines, Metadata).value]);
      HeaderOpens(indent);
      InjectedReadsBack(indent + [' ', ' '], k, value);
      var header := indent + KeyText(Annotations);
      OneKey(header, Annotations, k);
      NoKeyNoMatch(header, k);
    }
  }

  lemma NoKeyNoMatch(line: Line, k: Key)
    requires KeyEnd(line, k).None?
    ensures Spanned(line, k).None?
  {
  }

  // An annotation injected into a file that had none reads back, and the other
  // keys read as before.
  lemma InjectionReadsBack(lines: seq<Line>, k: Key, value: string, other: Key)
    requires HasAnchor(lines) && (k.Previous? || k.History?) && Fits(k, value) && First(lines, k).None?
    requires other != k && other != Annotations && other != Metadata
    ensures First(Injected(lines, k, value), k) == Some(value)
    ensures First(Injected(lines, k, value), other) == First(lines, other)
    ensures HasAnchor(Injected(lines, k, value))
  {
    hide KeyEnd, Spanned, Quoted, KeyText, Fits;
    var n, block := Place(lines), Block(lines, k, value);
    var before, after := lines[..n], lines[n..];
    InjectedAtPlace(lines, k, value);
    BlockReads(lines, k, value);
    OtherLinesSilent(block, k, other);
    FirstAppend(before + block, after, k);
    FirstAppend(before, block, k);
    FirstAppend(before + block, after, other);
    FirstAppend(before, block, other);
    assert lines == before + after;
    FirstAppend(before, after, k);
    FirstAppend(before, after, other);
    assert Injected(lines, k, value)[n - 1] == lines[n - 1];
  }

  lemma AnnotatedReadsBack(lines: seq<Line>, k: Key, value: string, other: Key)
    requires (k.Previous? || k.History?) && Fits(k, value)
    requires other != k && other != Annotations && other != Metadata
    ensures First(Annotated(lines, k, value), k) == if First(lines, k).Some? || HasAnchor(lines) then Some(value) else None
    ensures First(Annotated(lines, k, value), other) == First(lines, other)
    ensures HasAnchor(Annotated(lines, k, value)) <==> HasAnchor(lines)
  {
    hide Fits;
    ShownIsWord(k, value);
    if First(lines, k).Some? {
      hide Injected;
      ReplaceAllReadsBack(lines, k, value);
      ReplaceAllKeepsOthers(lines, k, Quoted(value), other);
      ReplaceAllKeepsOthers(lines, k, Quoted(value), Annotations);
      ReplaceAllKeepsOthers(lines, k, Quoted(value), Metadata);
    } else if HasAnchor(lines) {
      hide Injected;
      InjectionReadsBack(lines, k, value, other);
    }
  }

  // ---- References -----------------------------------------------------------------------

  // An image reference free of white space, commas, quotes, '#' and '\\'.
  predicate PlainRef(r: Ref)
  {
    r != [] && forall i | 0 <= i < |r| :: !IsSpace(r[i]) && r[i] != ',' && !IsQuote(r[i]) && r[i] != '#' && r[i] != '\\'
  }

  lemma {:induction false} JoinedFits(refs: seq<Ref>)
    requires refs != [] && forall r | r in refs :: PlainRef(r)
    ensures Fits(History, Join(refs, ','))
  {
    assert PlainRef(refs[0]);
    if |refs| > 1 {
      var rest := Join(refs[1..], ',');
      JoinedFits(refs[1..]);
      assert Join(refs, ',') == refs[0] + [','] + rest;
    }
  }

  lemma {:induction false} RefsOfPlain(refs: seq<Ref>)
    requires forall r | r in refs :: PlainRef(r)
    ensures Refs(refs) == refs
  {
    if refs != [] {
      assert PlainRef(refs[0]);
      TrimmedIsFixed(refs[0]);
      RefsOfPlain(refs[1..]);
      assert refs == [refs[0]] + refs[1..];
    }
  }

  // The history value written reads back as the history.
  lemma HistoryValueReadsBack(refs: seq<Ref>)
    requires refs != [] && forall r | r in refs :: PlainRef(r)
    ensures Refs(Split(Join(refs, ','), ',')) == refs
  {
    forall r | r in refs
      ensures ',' !in r
    {
      assert PlainRef(r);
    }
    SplitJoin(refs, ',');
    RefsOfPlain(refs);
  }

  lemma UpdatedIsPlain(displaced: Ref, history: seq<Ref>, target: Ref)
    requires displaced != target && PlainRef(displaced) && forall h | h in history :: PlainRef(h)
    ensures var u := Updated(displaced, history, target); u != [] && u[0] == displaced && forall r | r in u :: PlainRef(r)
  {
  }

  // ---- Read-back ---------------------------------------------------------------------------

  // The file has somewhere to keep a history: its own annotation, or a line one
  // can be injected below; a lone previous-image annotation holds one entry.
  predicate Recordable(lines: seq<Line>, updated: seq<Ref>)
  {
    First(lines, History).Some? || HasAnchor(lines) || (First(lines, Previous).Some? && |updated| == 1)
  }

  // After a rollback that changes the image, the file's image is the target; and
  // the history read back is the updated one exactly when the file had somewhere
  // to keep it.
  lemma RollbackReadsBack(lines: seq<Line>, target: Ref)
    requires First(lines, Image).Some? && First(lines, Image).value != target
    requires PlainRef(target) && PlainRef(First(lines, Image).value) && forall h | h in HistoryOf(lines) :: PlainRef(h)
    ensures var updated := Updated(First(lines, Image).value, HistoryOf(lines), target);
            && First(RolledBack(lines, target), Image) == Some(target)
            && (HistoryOf(RolledBack(lines, target)) == updated <==> Recordable(lines, updated))
            && (HasAnchor(RolledBack(lines, target)) <==> HasAnchor(lines))
            && (First(RolledBack(lines, target), History).Some? <==> First(lines, History).Some? || HasAnchor(lines))
  {
    var displaced := First(lines, Image).value;
    var updated := Updated(displaced, HistoryOf(lines), target);
    var value := Join(updated, ',');
    UpdatedIsPlain(displaced, HistoryOf(lines), target);
    JoinedFits(updated);
    assert Fits(Image, target) && Fits(Previous, displaced);
    HistoryValueReadsBack(updated);
    hide Updated, Fits, Split, Join, Annotated;
    var l1 := ReplaceAll(lines, Image, target);
    ReplaceAllReadsBack(lines, Image, target);
    ShownIsWord(Image, target);
    ReplaceAllKeepsOthers(lines, Image, target, Previous);
    ReplaceAllKeepsOthers(lines, Image, target, History);
    ReplaceAllKeepsOthers(lines, Image, target, Annotations);
    ReplaceAllKeepsOthers(lines, Image, target, Metadata);
    var l2 := Annotated(l1, Previous, displaced);
    AnnotatedReadsBack(l1, Previous, displaced, Image);
    AnnotatedReadsBack(l1, Previous, displaced, History);
    AnnotatedReadsBack(l2, History, value, Image);
    AnnotatedReadsBack(l2, History, value, Previous);
  }

  // ---- What is left alone -------------------------------------------------------------------

  // The lines that start with none of the keys ks, in order.
  function Others(lines: seq<Line>, ks: set<Key>): seq<Line>
  {
    if lines == [] then []
    else (if forall k | k in ks :: KeyEnd(lines[0], k).None? then [lines[0]] else []) + Others(lines[1..], ks)
  }

  lemma {:induction false} OthersAppend(a: seq<Line>, b: seq<Line>, ks: set<Key>)
    ensures Others(a + b, ks) == Others(a, ks) + Others(b, ks)
  {
    hide KeyEnd;
    if a == [] {
      assert a + b == b;
    } else {
      assert (a + b)[1..] == a[1..] + b && (a + b)[0] == a[0];
      OthersAppend(a[1..], b, ks);
    }
  }

  lemma {:induction false} OthersNone(block: seq<Line>, ks: set<Key>)
    requires forall l | l in block :: exists k | k in ks :: KeyEnd(l, k).Some?
    ensures Others(block, ks) == []
  {
    hide KeyEnd;
    if block != [] {
      assert block[0] in block && forall l | l in block[1..] :: l in block;
      OthersNone(block[1..], ks);
    }
  }

  lemma {:induction false} ReplaceAllLeavesOthers(lines: seq<Line>, k: Key, text: string, ks: set<Key>)
    requires k in ks && text != [] && !IsSpace(text[0])
    ensures Others(ReplaceAll(lines, k, text), ks) == Others(lines, ks)
  {
    hide KeyEnd, Spanned;
    if lines != [] {
      ReplaceAllLeavesOthers(lines[1..], k, text, ks);
      if Spanned(lines[0], k).Some? {
        ReplacedKeepsItsKey(lines[0], k, text);
      }
    }
  }

  lemma OthersAround(before: seq<Line>, block: seq<Line>, after: seq<Line>, ks: set<Key>)
    requires Others(block, ks) == []
    ensures Others(before + block + after, ks) == Others(before + after, ks)
  {
    hide Others;
    OthersAppend(before + block, after, ks);
    OthersAppend(before, block, ks);
    OthersAppend(before, after, ks);
  }

  lemma BlockIsOurs(lines: seq<Line>, k: Key, value: string, ks: set<Key>)
    requires HasAnchor(lines) && k in ks && (k.Previous? || k.History?) && Fits(k, value)
    requires Annotations in ks || Anchor(lines, Annotations).Some?
    ensures Others(Block(lines, k, value), ks) == []
  {
    BlockReads(lines, k, value);
    hide Fits, KeyEnd, Others, Block, First;
    var block := Block(lines, k, value);
    forall l | l in block
      ensures exists own | own in ks :: KeyEnd(l, own).Some?
    {
      assert KeyEnd(l, if KeyEnd(l, k).Some? then k else Annotations).Some?;
    }
    OthersNone(block, ks);
  }

  lemma InjectionLeavesOthers(lines: seq<Line>, k: Key, value: string, ks: set<Key>)
    requires HasAnchor(lines) && k in ks && (k.Previous? || k.History?) && Fits(k, value)
    requires Annotations in ks || Anchor(lines, Annotations).Some?
    ensures Others(Injected(lines, k, value), ks) == Others(lines, ks)
  {
    BlockIsOurs(lines, k, value, ks);
    hide Fits, Injected, Others, Block, Place, HasAnchor;
    InjectedAtPlace(lines, k, value);
    var n := Place(lines);
    OthersAround(lines[..n], Block(lines, k, value), lines[n..], ks);
    assert lines == lines[..n] + lines[n..];
  }

  lemma AnnotatedLeavesOthers(lines: seq<Line>, k: Key, value: string, ks: set<Key>)
    requires k in ks && (k.Previous? || k.History?) && Fits(k, value)
    requires Annotations in ks || Anchor(lines, Annotations).Some? || Anchor(lines, Metadata).None? || First(lines, k).Some?
    ensures Others(Annotated(lines, k, value), ks) == Others(lines, ks)
  {
    hide Others, Fits, First, Anchor;
    ShownIsWord(k, value);
    if First(lines, k).Some? {
      hide Injected;
      ReplaceAllLeavesOthers(lines, k, Quoted(value), ks);
    } else if HasAnchor(lines) {
      hide Injected;
      InjectionLeavesOthers(lines, k, value, ks);
    }
  }

  // Every line but the image's and the two annotations' stays, in order; the one
  // line a rollback may add beside them is the header of a new annotations block.
  lemma OtherLinesUnchanged(lines: seq<Line>, target: Ref)
    requires First(lines, Image).Some? && PlainRef(target)
    requires PlainRef(First(lines, Image).value) && forall h | h in HistoryOf(lines) :: PlainRef(h)
    ensures Others(RolledBack(lines, target), {Image, Previous, History, Annotations})
            == Others(lines, {Image, Previous, History, Annotations})
    ensures Anchor(lines, Annotations).Some? || Anchor(lines, Metadata).None?
            ==> Others(RolledBack(lines, target), {Image, Previous, History}) == Others(lines, {Image, Previous, History})
  {
    OthersKept(lines, target, {Image, Previous, History, Annotations});
    if Anchor(lines, Annotations).Some? || Anchor(lines, Metadata).None? {
      OthersKept(lines, target, {Image, Previous, History});
    }
  }

  lemma OthersKept(lines: seq<Line>, target: Ref, ks: set<Key>)
    requires First(lines, Image).Some? && PlainRef(target) && {Image, Previous, History} <= ks
    requires PlainRef(First(lines, Image).value) && forall h | h in HistoryOf(lines) :: PlainRef(h)
    requires Annotations in ks || Anchor(lines, Annotations).Some? || Anchor(lines, Metadata).None?
    ensures Others(RolledBack(lines, target), ks) == Others(lines, ks)
  {
    hide Others, HistoryOf, Anchor, First, ReplaceAll;
    var displaced := First(lines, Image).value;
    var l1 := ReplaceAll(lines, Image, target);
    assert Fits(Image, target);
    ShownIsWord(Image, target);
    ReplaceAllLeavesOthers(lines, Image, target, ks);
    ReplaceAllKeepsOthers(lines, Image, target, Annotations);
    ReplaceAllKeepsOthers(lines, Image, target, Metadata);
    if displaced != target {
      var updated := Updated(displaced, HistoryOf(lines), target);
      UpdatedIsPlain(displaced, HistoryOf(lines), target);
      JoinedFits(updated);
      assert Fits(Previous, displaced);
      hide Fits, Updated, Join, Annotated;
      var l2 := Annotated(l1, Previous, displaced);
      AnnotatedLeavesOthers(l1, Previous, displaced, ks);
      AnchorsKept(l1, Previous, displaced);
      AnnotatedLeavesOthers(l2, History, Join(updated, ','), ks);
    }
  }

  // An annotated file has an annotations block if it had one, and no anchor if
  // it had none.
  lemma AnchorsKept(lines: seq<Line>, k: Key, value: string)
    requires (k.Previous? || k.History?) && Fits(k, value)
    ensures Anchor(lines, Annotations).Some? ==> Anchor(Annotated(lines, k, value), Annotations).Some?
    ensures !HasAnchor(lines) ==> Anchor(Annotated(lines, k, value), Metadata).None?
  {
    hide Fits;
    ShownIsWord(k, value);
    if First(lines, k).Some? {
      ReplaceAllKeepsOthers(lines, k, Quoted(value), Annotations);
      ReplaceAllKeepsOthers(lines, k, Quoted(value), Metadata);
    } else if Anchor(lines, Annotations).Some? {
      var i := Anchor(lines, Annotations).value;
      assert Injected(lines, k, value)[i] == lines[i];
    }
  }

  // ---- Runs of rollbacks, in the file -------------------------------------------------------

  function StateOf(lines: seq<Line>): State
    requires First(lines, Image).Some?
  {
    State(First(lines, Image).value, HistoryOf(lines))
  }

  // One command after another, each going back some generations.
  function RollbackAll(lines: seq<Line>, generations: seq<int>): Option<seq<Line>>
    decreases |generations|
  {
    if generations == [] then Some(lines)
    else
      var (outcome, next) := Rewritten(lines, [], generations[0]);
      if outcome.Done? then RollbackAll(next, generations[1..]) else None
  }

  // A number that is not positive means one.
  function Steps(generations: seq<int>): (r: seq<nat>)
    ensures |r| == |generations|
  {
    seq(|generations|, i requires 0 <= i < |generations| => if generations[i] <= 0 then 1 else generations[i])
  }

  ghost predicate Plain(s: State)
  {
    PlainRef(s.current) && forall h | h in s.history :: PlainRef(h)
  }

  lemma OneRollback(lines: seq<Line>, back: nat)
    requires First(lines, Image).Some? && Tidy(StateOf(lines)) && Plain(StateOf(lines)) && CanGoBack(StateOf(lines), back)
    requires First(lines, History).Some? || HasAnchor(lines)
    ensures var next := RolledBack(lines, HistoryOf(lines)[back - 1]);
            && First(next, Image).Some? && StateOf(next) == Back(StateOf(lines), back)
            && (First(next, History).Some? || HasAnchor(next))
            && Tidy(StateOf(next)) && Plain(StateOf(next))
  {
    var s, target := StateOf(lines), HistoryOf(lines)[back - 1];
    assert target in s.history;
    RollbackReadsBack(lines, target);
    BackConserves(s, back);
    UpdatedIsPlain(s.current, s.history, target);
    hide RolledBack, HistoryOf, Updated;
  }

  // A rollback command that names a generation is that step of the history machine.
  lemma CommandGoesBack(lines: seq<Line>, generation: int)
    requires First(lines, Image).Some? && Tidy(StateOf(lines)) && Plain(StateOf(lines))
    requires First(lines, History).Some? || HasAnchor(lines)
    ensures var s, back := StateOf(lines), if generation <= 0 then 1 else generation;
            var (outcome, next) := Rewritten(lines, [], generation);
            && (outcome.Done? <==> CanGoBack(s, back))
            && (outcome.Done? ==>
                  && First(next, Image).Some? && StateOf(next) == Back(s, back)
                  && outcome.target == Back(s, back).current && outcome.history == Back(s, back).history
                  && (First(next, History).Some? || HasAnchor(next)) && Tidy(StateOf(next)) && Plain(StateOf(next)))
  {
    hide HistoryOf, Updated, RolledBack, First, HasAnchor, Tidy, Plain;
    var back: nat := if generation <= 0 then 1 else generation;
    assert Trim([]) == [];
    if CanGoBack(StateOf(lines), back) {
      OneRollback(lines, back);
    }
  }

  // Any sequence of rollback commands on a file that can keep its history is
  // exactly that sequence on the state machine: so it conserves the known
  // images, and going back and forth restores the file's image and history.
  lemma {:induction false} FileFollowsHistory(lines: seq<Line>, generations: seq<int>)
    requires First(lines, Image).Some? && Tidy(StateOf(lines)) && Plain(StateOf(lines))
    requires First(lines, History).Some? || HasAnchor(lines)
    ensures RollbackAll(lines, generations).Some? <==> BackAll(StateOf(lines), Steps(generations)).Some?
    ensures RollbackAll(lines, generations).Some? ==>
              var end := RollbackAll(lines, generations).value;
              First(end, Image).Some? && StateOf(end) == BackAll(StateOf(lines), Steps(generations)).value
    decreases |generations|
  {
    hide Rewritten, Back, HistoryOf, First, Plain, Tidy, HasAnchor, CanGoBack;
    if generations != [] {
      CommandGoesBack(lines, generations[0]);
      var (outcome, next) := Rewritten(lines, [], generations[0]);
      assert Steps(generations)[1..] == Steps(generations[1..]);
      if outcome.Done? {
        FileFollowsHistory(next, generations[1..]);
      }
    }
  }
}
