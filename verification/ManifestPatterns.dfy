// What the line functions of the manifest stand for: the regular expressions the
// command is written in, matched greedily from the left, as Go matches them.
// Source: cmd/pokkum/rollback.go, runRollback.

module ManifestPatterns {
  import opened Text
  import opened Manifest
  import opened ManifestProofs

  // The classes of the three patterns, `[^\s#]`, `[^\s"']` and `[^\r\n"']`.
  predicate InClass(k: Key, c: char)
  {
    match k
    case Image => c != ' ' && c != '\t' && c != '\r' && c != '\n' && c != '#'
    case Previous => c != ' ' && c != '\t' && c != '\r' && c != '\n' && c != '"' && c != '\''
    case _ => c != '\r' && c != '\n' && c != '"' && c != '\''
  }

  predicate Valued(k: Key)
  {
    k.Image? || k.Previous? || k.History?
  }

  // One way for `\s*["']?[class]+` to match at the start of a text: where the
  // white space, the quote and the value end. The image's pattern has no quote.
  datatype Parse = Parse(mid: nat, quote: nat, value: nat)

  predicate Parses(s: string, k: Key, p: Parse)
  {
    && p.mid <= p.quote < p.value <= |s|
    && (forall i | 0 <= i < p.mid :: IsSpace(s[i]))
    && (p.quote == p.mid || (!k.Image? && p.quote == p.mid + 1 && (s[p.mid] == '"' || s[p.mid] == '\'')))
    && (forall i | p.quote <= i < p.value :: InClass(k, s[i]))
  }

  // A greedy matcher prefers more white space, then a quote, then a longer value.
  predicate Preferred(p: Parse, q: Parse)
  {
    p.mid > q.mid || (p.mid == q.mid && (p.quote > q.quote || (p.quote == q.quote && p.value >= q.value)))
  }

  // `^\s*key:` matches, and leaves the rest.
  predicate Keyed(line: Line, k: Key, a: nat)
  {
    && a + |KeyText(k)| <= |line| && (forall i | 0 <= i < a :: IsSpace(line[i]))
    && forall i | 0 <= i < |KeyText(k)| :: line[a + i] == KeyText(k)[i]
  }

  // ---- After the key --------------------------------------------------------------------

  // Past the white space and an opening quote.
  function ValueStart(s: string, k: Key): (q: nat)
    ensures Spaces(s) <= q <= |s|
  {
    var n := Spaces(s);
    if !k.Image? && |s| > n && IsQuote(s[n]) then n + 1 else n
  }

  // How Spanned takes apart what follows the key.
  function Taken(s: string, k: Key): Option<Parse>
  {
    var n, q := Spaces(s), ValueStart(s, k);
    var v := ValueLength(k, s[q..]);
    if v > 0 then Some(Parse(n, q, q + v))
    else if k.History? && n > 0 && InValue(k, s[n - 1]) then Some(Parse(n - 1, n - 1, n))
    else None
  }

  lemma ClassIsValue(k: Key, c: char)
    requires Valued(k)
    ensures InClass(k, c) <==> InValue(k, c)
    ensures InClass(k, c) && !k.Image? ==> !IsQuote(c)
    ensures InClass(k, c) && IsSpace(c) ==> k.History?
    ensures k.History? && IsSpace(c) && c != '\r' && c != '\n' ==> InClass(k, c)
  {
  }

  lemma TakenParses(s: string, k: Key)
    requires Valued(k) && Taken(s, k).Some?
    ensures Parses(s, k, Taken(s, k).value)
  {
    hide InClass, InValue;
    var p := Taken(s, k).value;
    forall i | p.quote <= i < p.value
      ensures InClass(k, s[i])
    {
      ClassIsValue(k, s[i]);
    }
  }

  // A run of the class cannot go on past where the value is taken to end.
  lemma ValueReaches(s: string, k: Key, from: nat, to: nat)
    requires Valued(k) && from <= to <= |s| && forall i | from <= i < to :: InClass(k, s[i])
    ensures ValueLength(k, s[from..]) >= to - from
  {
    hide InClass, InValue;
    var v := ValueLength(k, s[from..]);
    if v < to - from {
      ClassIsValue(k, s[from + v]);
    }
  }

  lemma SameWhite(s: string, k: Key, q: Parse)
    requires Valued(k) && Parses(s, k, q) && q.mid == Spaces(s)
    ensures Taken(s, k).Some? && Preferred(Taken(s, k).value, q)
  {
    ValueReaches(s, k, q.quote, q.value);
    ClassIsValue(k, s[q.quote]);
    hide InClass, InValue, ValueLength;
  }

  lemma LessWhite(s: string, k: Key, q: Parse)
    requires Valued(k) && Parses(s, k, q) && q.mid < Spaces(s)
    requires forall i | 0 <= i < |s| :: s[i] != '\r' && s[i] != '\n'
    ensures Taken(s, k).Some? && Preferred(Taken(s, k).value, q)
  {
    var n := Spaces(s);
    ClassIsValue(k, s[q.mid]);
    assert IsSpace(s[q.mid]) && k.History?;
    ClassIsValue(k, s[n - 1]);
    if q.value > n {
      ClassIsValue(k, s[n]);
      ValueReaches(s, k, n, n + 1);
    }
    hide InClass, InValue, ValueLength;
  }

  // What is taken is the match a greedy matcher prefers, and there is none where
  // the pattern has no match.
  lemma TakenIsGreedy(s: string, k: Key)
    requires Valued(k) && forall i | 0 <= i < |s| :: s[i] != '\r' && s[i] != '\n'
    ensures Taken(s, k).None? <==> forall q :: !Parses(s, k, q)
    ensures Taken(s, k).Some? ==> Parses(s, k, Taken(s, k).value) && forall q | Parses(s, k, q) :: Preferred(Taken(s, k).value, q)
  {
    hide Taken, Parses, Preferred;
    if Taken(s, k).Some? {
      TakenParses(s, k);
    }
    forall q | Parses(s, k, q)
      ensures Taken(s, k).Some? && Preferred(Taken(s, k).value, q)
    {
      TakenCovers(s, k, q);
    }
  }

  lemma TakenCovers(s: string, k: Key, q: Parse)
    requires Valued(k) && Parses(s, k, q) && forall i | 0 <= i < |s| :: s[i] != '\r' && s[i] != '\n'
    ensures Taken(s, k).Some? && Preferred(Taken(s, k).value, q)
  {
    hide InClass, Taken, Preferred;
    if q.mid < Spaces(s) {
      LessWhite(s, k, q);
    } else {
      SameWhite(s, k, q);
    }
  }

  // ---- The line -----------------------------------------------------------------------------

  lemma KeyFound(line: Line, k: Key, a: nat)
    requires Keyed(line, k, a)
    ensures a == Spaces(line) && KeyEnd(line, k) == Some(a + |KeyText(k)|)
  {
    KeyFacts(k);
    hide KeyText;
    assert line[a + 0] == KeyText(k)[0];
    assert line[a..][..|KeyText(k)|] == KeyText(k);
  }

  lemma FoundIsKeyed(line: Line, k: Key)
    requires KeyEnd(line, k).Some?
    ensures Keyed(line, k, Spaces(line))
  {
    hide KeyText, Spaces;
    var a := Spaces(line);
    forall i | 0 <= i < |KeyText(k)|
      ensures line[a + i] == KeyText(k)[i]
    {
      assert line[a..][..|KeyText(k)|][i] == line[a + i];
    }
  }

  // The whole pattern, `^\s*key:\s*["']?[class]+`, at the start of a line.
  predicate MatchesAt(line: Line, k: Key, a: nat, p: Parse)
  {
    Keyed(line, k, a) && Parses(line[a + |KeyText(k)|..], k, p)
  }

  // A line is left alone exactly when the pattern has no match in it.
  lemma SpannedIff(line: Line, k: Key)
    requires Valued(k) && forall i | 0 <= i < |line| :: line[i] != '\r' && line[i] != '\n'
    ensures Spanned(line, k).Some? <==> exists a: nat, p: Parse :: MatchesAt(line, k, a, p)
  {
    hide KeyText, Spanned, Parses, Preferred, Keyed, Unquoted, KeyEnd, Taken;
    if KeyEnd(line, k).Some? {
      FoundIsKeyed(line, k);
      KeyFound(line, k, Spaces(line));
      TakenIsGreedy(line[KeyEnd(line, k).value..], k);
      SpannedTakes(line, k);
      if Spanned(line, k).Some? {
        assert MatchesAt(line, k, Spaces(line), Taken(line[KeyEnd(line, k).value..], k).value);
      }
    }
    MatchHasKey(line, k);
    forall a: nat, p: Parse | MatchesAt(line, k, a, p)
      ensures Spanned(line, k).Some?
    {
      KeyFound(line, k, a);
      assert Parses(line[KeyEnd(line, k).value..], k, p);
    }
  }

  // Otherwise it takes the match a greedy matcher prefers: what is captured, and
  // what a replacement keeps before it and after an optional closing quote.
  lemma SpannedIsTheMatch(line: Line, k: Key, a: nat, p: Parse)
    requires Valued(k) && forall i | 0 <= i < |line| :: line[i] != '\r' && line[i] != '\n'
    requires MatchesAt(line, k, a, p) && forall q | MatchesAt(line, k, a, q) :: Preferred(p, q)
    ensures var b := a + |KeyText(k)|;
            var tail := line[b + p.value..];
            Spanned(line, k) == Some(Span(line[..b + p.mid], line[b + p.quote..b + p.value],
                                          if k.Image? then tail else Unquoted(tail)))
  {
    hide KeyText, Spanned, Keyed, Unquoted, KeyEnd, Taken, Parses;
    KeyFound(line, k, a);
    TakenIsGreedy(line[a + |KeyText(k)|..], k);
    SpannedTakes(line, k);
    assert MatchesAt(line, k, a, Taken(line[a + |KeyText(k)|..], k).value);
  }

  function From(s: string, i: nat): (r: string)
    requires i <= |s|
    ensures |r| == |s| - i
  {
    s[i..]
  }

  function Cut(s: string, i: nat, j: nat): string
    requires i <= j <= |s|
  {
    s[i..j]
  }

  function Tail(k: Key, s: string): string
  {
    if k.Image? then s else Unquoted(s)
  }

  // What a match captures: the head up to the value's white space, the value, and
  // the rest without an opening quote.
  function SpanOf(line: Line, b: nat, k: Key, p: Parse): Span
    requires p.mid <= p.quote <= p.value && b + p.value <= |line|
  {
    Span(Cut(line, 0, b + p.mid), Cut(line, b + p.quote, b + p.value), Tail(k, From(line, b + p.value)))
  }

  // The whole of Spanned, in terms of what follows the key.
  lemma SpannedTakes(line: Line, k: Key)
    requires Valued(k) && KeyEnd(line, k).Some?
    ensures var b := KeyEnd(line, k).value;
            match Taken(line[b..], k)
            case None => Spanned(line, k).None?
            case Some(p) => p.mid <= p.quote <= p.value && b + p.value <= |line| && Spanned(line, k) == Some(SpanOf(line, b, k, p))
  {
    hide KeyEnd, KeyText, InValue, Spaces, ValueLength, Unquoted, Spanned, SpanOf, ValueStart, From, Cut, Tail;
    var b := KeyEnd(line, k).value;
    var s := line[b..];
    var n, q := Spaces(s), ValueStart(s, k);
    RestOf(line, b, k);
    var v := ValueLength(k, s[q..]);
    SpannedIs(line, k, b, n, q, v);
    assert n > 0 ==> s[n - 1] == line[b + n - 1];
  }

  // What may hold the value: what follows the white space and an opening quote.
  lemma RestOf(line: Line, b: nat, k: Key)
    requires b <= |line|
    ensures var s := line[b..];
            var n, q := Spaces(s), ValueStart(s, k);
            Tail(k, From(line, b + n)) == From(line, b + q) == s[q..]
  {
    hide Spaces;
    var s := line[b..];
    var n := Spaces(s);
    assert |s| > n ==> line[b + n] == s[n] && line[b + n..][1..] == line[b + n + 1..];
  }

  // Spanned's own text, its parts given.
  lemma SpannedText(line: Line, k: Key, b: nat, n: nat, rest: string, v: nat)
    requires KeyEnd(line, k) == Some(b) && n == Spaces(line[b..])
    requires rest == Tail(k, From(line, b + n)) && v == ValueLength(k, rest)
    ensures Spanned(line, k) ==
            if v > 0 then Some(Span(Cut(line, 0, b + n), Cut(rest, 0, v), Tail(k, From(rest, v))))
            else if k.History? && n > 0 && InValue(k, line[b + n - 1])
            then Some(Span(Cut(line, 0, b + n - 1), [line[b + n - 1]], Unquoted(From(line, b + n))))
            else None
  {
    hide KeyEnd, KeyText, InValue, Spaces, ValueLength, Unquoted, StartsWith;
  }

  lemma CutAgain(s: string, q: nat, v: nat)
    requires q + v <= |s|
    ensures Cut(From(s, q), 0, v) == Cut(s, q, q + v) && From(From(s, q), v) == From(s, q + v)
    ensures v == 1 ==> Cut(s, q, q + 1) == [s[q]]
  {
  }

  lemma SpannedIs(line: Line, k: Key, b: nat, n: nat, q: nat, v: nat)
    requires KeyEnd(line, k) == Some(b) && n == Spaces(line[b..]) && q == ValueStart(line[b..], k)
    requires b + q <= |line| && v == ValueLength(k, From(line, b + q)) && Tail(k, From(line, b + n)) == From(line, b + q)
    ensures Spanned(line, k) ==
            if v > 0 then Some(SpanOf(line, b, k, Parse(n, q, q + v)))
            else if k.History? && n > 0 && InValue(k, line[b + n - 1]) then Some(SpanOf(line, b, k, Parse(n - 1, n - 1, n)))
            else None
  {
    hide KeyEnd, KeyText, InValue, Spaces, ValueLength, Unquoted, ValueStart, Spanned, From, Cut;
    SpannedText(line, k, b, n, From(line, b + q), v);
    CutAgain(line, b + q, v);
    if n > 0 {
      CutAgain(line, b + n - 1, 1);
    }
  }
}
