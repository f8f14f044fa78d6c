// What a rollback writes can be read back, and everything else it leaves alone.
// Source: cmd/pokkum/rollback.go, runRollback, injectAnnotation.

module ManifestProofs {
  import opened Text
  import opened RollbackHistory
  import opened Manifest

  // ---- One line ---------------------------------------------------------------------------

  lemma KeyFacts(k: Key)
    ensures KeyText(k) != [] && forall i | 0 <= i < |KeyText(k)| :: !IsSpace(KeyText(k)[i])
  {
  }

  // No key's text begins with another's.
  lemma KeysDiffer(a: Key, b: Key)
    requires a != b
    ensures !StartsWith(KeyText(a), KeyText(b))
  {
    var x, y := KeyText(a), KeyText(b);
    if a.Previous? && b.History? {
      assert x[11] == 'p' && y[11] == 'i';
    } else if a.History? && b.Previous? {
      assert x[11] == 'i' && y[11] == 'p';
    } else {
      assert x[0] != y[0];
    }
  }

  lemma PrefixesNest(s: string, x: string, y: string)
    requires StartsWith(s, x) && StartsWith(s, y) && |y| <= |x|
    ensures StartsWith(x, y)
  {
    assert x[..|y|] == s[..|x|][..|y|] == s[..|y|];
  }

  // A line starts with at most one key.
  lemma OneKey(line: Line, a: Key, b: Key)
    requires a != b && KeyEnd(line, a).Some?
    ensures KeyEnd(line, b).None?
  {
    hide KeyText;
    if KeyEnd(line, b).Some? {
      var rest := line[Spaces(line)..];
      if |KeyText(b)| <= |KeyText(a)| {
        PrefixesNest(rest, KeyText(a), KeyText(b));
        KeysDiffer(a, b);
      } else {
        PrefixesNest(rest, KeyText(b), KeyText(a));
        KeysDiffer(b, a);
      }
    }
  }

  lemma {:induction false} SpacesThen(a: string, b: string)
    requires forall i | 0 <= i < |a| :: IsSpace(a[i])
    requires b == [] || !IsSpace(b[0])
    ensures Spaces(a + b) == |a|
  {
    if a == [] {
      assert a + b == b;
    } else {
      assert (a + b)[1..] == a[1..] + b;
      SpacesThen(a[1..], b);
    }
  }

  lemma {:induction false} ValueThen(k: Key, a: string, b: string)
    requires forall i | 0 <= i < |a| :: InValue(k, a[i])
    requires b == [] || !InValue(k, b[0])
    ensures ValueLength(k, a + b) == |a|
  {
    if a == [] {
      assert a + b == b;
    } else {
      assert (a + b)[1..] == a[1..] + b;
      ValueThen(k, a[1..], b);
    }
  }

  // head is white space, the key, and white space.
  predicate Heads(head: string, k: Key)
  {
    KeyEnd(head, k).Some? && forall i | KeyEnd(head, k).value <= i < |head| :: IsSpace(head[i])
  }

  // White space before something else ends there, whatever comes later.
  lemma {:induction false} SpacesExtend(s: string, t: string)
    requires Spaces(s) < |s|
    ensures Spaces(s + t) == Spaces(s)
  {
    assert (s + t)[0] == s[0];
    if IsSpace(s[0]) {
      assert (s + t)[1..] == s[1..] + t;
      SpacesExtend(s[1..], t);
    }
  }

  // A key stands where it stands, whatever follows it.
  lemma KeyEndExtend(s: string, t: string, k: Key)
    requires KeyEnd(s, k).Some?
    ensures KeyEnd(s + t, k) == KeyEnd(s, k)
  {
    KeyFacts(k);
    hide KeyText;
    SpacesExtend(s, t);
    hide Spaces;
    var a := Spaces(s);
    assert (s + t)[a..][..|KeyText(k)|] == s[a..][..|KeyText(k)|];
  }

  // Whatever follows a head that is not white space, the key is found at the same
  // place and the white space after it ends with the head.
  lemma HeadFound(head: string, k: Key, rest: string)
    requires Heads(head, k) && rest != [] && !IsSpace(rest[0])
    ensures KeyEnd(head + rest, k) == KeyEnd(head, k)
    ensures var b := KeyEnd(head, k).value; b + Spaces((head + rest)[b..]) == |head|
  {
    KeyEndExtend(head, rest, k);
    hide KeyEnd;
    var b := KeyEnd(head, k).value;
    assert (head + rest)[b..] == head[b..] + rest;
    SpacesThen(head[b..], rest);
  }

  // A line cut within the white space after its key is a head.
  lemma CutIsAHead(line: Line, k: Key, m: nat)
    requires KeyEnd(line, k).Some?
    requires KeyEnd(line, k).value <= m <= KeyEnd(line, k).value + Spaces(line[KeyEnd(line, k).value..])
    ensures Heads(line[..m], k)
  {
    KeyEndCut(line, k, m);
    hide KeyEnd;
    var b := KeyEnd(line, k).value;
    var rest := line[b..];
    forall i | b <= i < m
      ensures IsSpace(line[..m][i])
    {
      assert line[..m][i] == rest[i - b];
    }
  }

  lemma {:induction false} SpacesCut(s: string, m: nat)
    requires Spaces(s) < m <= |s|
    ensures Spaces(s[..m]) == Spaces(s)
  {
    if IsSpace(s[0]) {
      assert s[..m][1..] == s[1..][..m - 1];
      SpacesCut(s[1..], m - 1);
    }
  }

  lemma KeyEndCut(line: Line, k: Key, m: nat)
    requires KeyEnd(line, k).Some? && KeyEnd(line, k).value <= m <= |line|
    ensures KeyEnd(line[..m], k) == KeyEnd(line, k)
  {
    KeyFacts(k);
    hide KeyText;
    SpacesCut(line, m);
    hide Spaces;
    var a := Spaces(line);
    assert line[..m][a..][..|KeyText(k)|] == line[a..][..|KeyText(k)|];
  }

  // The head of a match is a head.
  lemma MatchHasHead(line: Line, k: Key)
    ensures Spanned(line, k).Some? ==> Heads(Spanned(line, k).value.head, k)
  {
    hide KeyEnd, ValueLength, Unquoted, Heads;
    if Spanned(line, k).Some? {
      CutIsAHead(line, k, |Spanned(line, k).value.head|);
    }
  }

  // ---- One line, rewritten ----------------------------------------------------------------

  // A value that needs no escaping and that the key's pattern takes whole.
  predicate Fits(k: Key, value: string)
  {
    value != [] && forall i | 0 <= i < |value| :: InValue(k, value[i]) && value[i] != '"' && value[i] != '\\'
  }

  lemma {:induction false} EscapedPlain(s: string)
    requires forall i | 0 <= i < |s| :: s[i] != '"' && s[i] != '\\'
    ensures Escaped(s) == s
  {
    if s != [] {
      EscapedPlain(s[1..]);
      assert s == [s[0]] + s[1..];
    }
  }

  // What replaces a key's match: the image bare, an annotation quoted.
  function Shown(k: Key, value: string): string
  {
    if k.Image? then value else Quoted(value)
  }

  lemma ShownIsWord(k: Key, value: string)
    requires Fits(k, value)
    ensures Shown(k, value) != [] && !IsSpace(Shown(k, value)[0])
  {
  }

  lemma ImageRebuilt(head: string, value: string, tail: string)
    requires Heads(head, Image) && Fits(Image, value) && (tail == [] || !InValue(Image, tail[0]))
    ensures Spanned(head + (value + tail), Image) == Some(Span(head, value, tail))
  {
    hide KeyEnd, Spaces, ValueLength;
    var line := head + (value + tail);
    HeadFound(head, Image, value + tail);
    ValueThen(Image, value, tail);
    assert line[|head|..] == value + tail && line[..|head|] == head;
  }

  lemma QuotedOpens(value: string, tail: string)
    requires forall i | 0 <= i < |value| :: value[i] != '"' && value[i] != '\\'
    ensures var close := ['"'] + tail;
            && Quoted(value) + tail == ['"'] + (value + close)
            && Unquoted(Quoted(value) + tail) == value + close
            && Unquoted(close) == tail
  {
    EscapedPlain(value);
    var close := ['"'] + tail;
    assert Quoted(value) + tail == ['"'] + (value + close);
    assert (['"'] + (value + close))[1..] == value + close;
    assert close[1..] == tail;
  }

  lemma AnnotationRebuilt(head: string, k: Key, value: string, tail: string)
    requires Heads(head, k) && (k.Previous? || k.History?) && Fits(k, value)
    ensures Spanned(head + (Quoted(value) + tail), k) == Some(Span(head, value, tail))
  {
    hide KeyEnd, Spaces, ValueLength;
    QuotedOpens(value, tail);
    hide Quoted, Unquoted;
    var line, shown, close := head + (Quoted(value) + tail), Quoted(value) + tail, ['"'] + tail;
    HeadFound(head, k, shown);
    assert line[|head|..] == shown && line[..|head|] == head;
    ValueThen(k, value, close);
    assert (value + close)[|value|..] == close && (value + close)[..|value|] == value;
  }

  lemma ImageTailStops(line: Line)
    requires Spanned(line, Image).Some?
    ensures var tail := Spanned(line, Image).value.tail; tail == [] || !InValue(Image, tail[0])
  {
    hide KeyEnd, Unquoted;
  }

  lemma ImageReadsBack(line: Line, value: string)
    requires Spanned(line, Image).Some? && Fits(Image, value)
    ensures var new_ := Spanned(Replaced(line, Image, value), Image); new_.Some? && new_.value.value == value
  {
    MatchHasHead(line, Image);
    ImageTailStops(line);
    hide Spanned, Heads, Fits, InValue;
    var s := Spanned(line, Image).value;
    ImageRebuilt(s.head, value, s.tail);
  }

  lemma AnnotationReadsBack(line: Line, k: Key, value: string)
    requires Spanned(line, k).Some? && (k.Previous? || k.History?) && Fits(k, value)
    ensures var new_ := Spanned(Replaced(line, k, Quoted(value)), k); new_.Some? && new_.value.value == value
  {
    MatchHasHead(line, k);
    hide Spanned, Heads, Fits, Quoted;
    var s := Spanned(line, k).value;
    AnnotationRebuilt(s.head, k, value, s.tail);
  }

  // A rewritten match reads back as what was written.
  lemma ReplacedReadsBack(line: Line, k: Key, value: string)
    requires Spanned(line, k).Some? && !k.Annotations? && !k.Metadata? && Fits(k, value)
    ensures var new_ := Spanned(Replaced(line, k, Shown(k, value)), k); new_.Some? && new_.value.value == value
  {
    hide Spanned, Fits, Quoted, Replaced;
    if k.Image? {
      ImageReadsBack(line, value);
    } else {
      AnnotationReadsBack(line, k, value);
    }
  }

  lemma MatchHasKey(line: Line, k: Key)
    ensures Spanned(line, k).Some? ==> KeyEnd(line, k).Some?
  {
  }

  // It is still that key's line, so no other key's.
  lemma ReplacedKeepsItsKey(line: Line, k: Key, text: string)
    requires Spanned(line, k).Some? && text != [] && !IsSpace(text[0])
    ensures KeyEnd(Replaced(line, k, text), k).Some? && KeyEnd(line, k).Some?
  {
    hide Spanned, KeyEnd;
    var s := Spanned(line, k).value;
    MatchHasKey(line, k);
    MatchHasHead(line, k);
    HeadFound(s.head, k, text + s.tail);
  }

  lemma OtherKeysKept(line: Line, k: Key, text: string, other: Key)
    requires other != k && text != [] && !IsSpace(text[0])
    ensures Spanned(Replaced(line, k, text), other) == Spanned(line, other)
    ensures Opens(Replaced(line, k, text), other) <==> Opens(line, other)
    ensures KeyEnd(Replaced(line, k, text), other).Some? <==> KeyEnd(line, other).Some?
  {
    hide KeyEnd;
    if Spanned(line, k).Some? {
      ReplacedKeepsItsKey(line, k, text);
      OneKey(line, k, other);
      OneKey(Replaced(line, k, text), k, other);
    }
  }

  // An injected line is one match of its key.
  lemma InjectedReadsBack(indent: string, k: Key, value: string)
    requires forall i | 0 <= i < |indent| :: IsSpace(indent[i])
    requires (k.Previous? || k.History?) && Fits(k, value)
    ensures var s := Spanned(AnnotationLine(indent, k, value), k); s.Some? && s.value.value == value
    ensures KeyEnd(AnnotationLine(indent, k, value), k).Some?
  {
    var head := indent + KeyText(k) + [' '];
    KeyFacts(k);
    hide KeyText;
    assert head == indent + (KeyText(k) + [' ']);
    SpacesThen(indent, KeyText(k) + [' ']);
    assert head[|indent|..] == KeyText(k) + [' '];
    assert Heads(head, k);
    assert AnnotationLine(indent, k, value) == head + (Quoted(value) + []);
    AnnotationRebuilt(head, k, value, []);
  }

  lemma HeaderOpens(indent: string)
    requires forall i | 0 <= i < |indent| :: IsSpace(indent[i])
    ensures Opens(indent + KeyText(Annotations), Annotations)
  {
    KeyFacts(Annotations);
    hide KeyText;
    SpacesThen(indent, KeyText(Annotations));
    var line := indent + KeyText(Annotations);
    assert line[|indent|..] == KeyText(Annotations);
  }

  // ---- What is written ---------------------------------------------------------------------

  // What a reader makes of an escaped string.
  function Unescaped(s: string): string
  {
    if s == [] then []
    else if s[0] == '\\' && |s| > 1 then [s[1]] + Unescaped(s[2..])
    else [s[0]] + Unescaped(s[1..])
  }

  // Quoting loses nothing, whatever quotes and backslashes the text holds.
  lemma {:induction false} EscapedReadsBack(s: string)
    ensures Unescaped(Escaped(s)) == s
  {
    if s != [] {
      EscapedReadsBack(s[1..]);
      var e := Escaped(s);
      if s[0] == '"' || s[0] == '\\' {
        assert e[2..] == Escaped(s[1..]);
      } else {
        assert e[1..] == Escaped(s[1..]);
      }
      assert s == [s[0]] + s[1..];
    }
  }

  // An injected annotation stands right below the first annotations line, two
  // blanks deeper; without one, in a new block right below the first metadata
  // line, two blanks deeper again. Nothing else moves.
  lemma InjectedWhere(lines: seq<Line>, k: Key, value: string)
    ensures var deeper := [' ', ' '];
            match Anchor(lines, Annotations)
            case Some(i) =>
              var margin := lines[i][..Spaces(lines[i])] + deeper;
              Injected(lines, k, value) == lines[..i + 1] + [margin + KeyText(k) + [' '] + Quoted(value)] + lines[i + 1..]
            case None =>
              match Anchor(lines, Metadata)
              case Some(i) =>
                var margin := lines[i][..Spaces(lines[i])] + deeper;
                Injected(lines, k, value) ==
                  lines[..i + 1] + [margin + KeyText(Annotations), margin + deeper + KeyText(k) + [' '] + Quoted(value)] + lines[i + 1..]
              case None => Injected(lines, k, value) == lines
  {
    hide KeyText, Quoted, Spaces, Anchor;
  }
}
