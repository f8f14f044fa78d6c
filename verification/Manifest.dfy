// The Kubernetes manifest a rollback rewrites, line by line: the image lines, the
// two annotations the history is kept in, and where a missing one is injected.
// The Go code matches patterns against the whole text; on text without blank
// lines, and with no value left for the next line, every match lies in one line.
// Source: cmd/pokkum/rollback.go, runRollback, injectAnnotation.

module Manifest {
  import opened Text
  import opened RollbackHistory

  type Line = string

  // The keys the patterns look for at the start of a line.
  datatype Key = Image | Previous | History | Annotations | Metadata

  function KeyText(k: Key): string
  {
    match k
    case Image => "image:"
    case Previous => "pokkum.dev/previous-image:"
    case History => "pokkum.dev/image-history:"
    case Annotations => "annotations:"
    case Metadata => "metadata:"
  }

  predicate IsQuote(c: char)
  {
    c == '"' || c == '\''
  }

  // The characters a key's value may hold.
  predicate InValue(k: Key, c: char)
  {
    match k
    case Image => !IsSpace(c) && c != '#'
    case Previous => !IsSpace(c) && !IsQuote(c)
    case History => c != '\r' && c != '\n' && !IsQuote(c)
    case _ => false
  }

  function Spaces(s: string): (n: nat)
    ensures n <= |s| && (forall i | 0 <= i < n :: IsSpace(s[i])) && (n < |s| ==> !IsSpace(s[n]))
  {
    if s == [] || !IsSpace(s[0]) then 0 else 1 + Spaces(s[1..])
  }

  function ValueLength(k: Key, s: string): (n: nat)
    ensures n <= |s| && (forall i | 0 <= i < n :: InValue(k, s[i])) && (n < |s| ==> !InValue(k, s[n]))
  {
    if s == [] || !InValue(k, s[0]) then 0 else 1 + ValueLength(k, s[1..])
  }

  predicate StartsWith(s: string, prefix: string)
  {
    |prefix| <= |s| && s[..|prefix|] == prefix
  }

  // Where the key of a line ends, when the line is white space and then the key.
  function KeyEnd(line: Line, k: Key): (n: Option<nat>)
    ensures n.Some? ==> n.value <= |line|
  {
    var a := Spaces(line);
    if StartsWith(line[a..], KeyText(k)) then Some(a + |KeyText(k)|) else None
  }

  // A line taken apart around the text a pattern captures or replaces.
  datatype Span = Span(head: string, value: string, tail: string)

  function Unquoted(s: string): string
  {
    if s != [] && IsQuote(s[0]) then s[1..] else s
  }

  // The pattern's match in a line: white space, key, white space, then the value
  // with an optional quote on either side. Where the value would be empty, the
  // history pattern gives back one space and takes that.
  function Spanned(line: Line, k: Key): Option<Span>
  {
    match KeyEnd(line, k)
    case None => None
    case Some(b) =>
      var n := b + Spaces(line[b..]);
      var rest := if k.Image? then line[n..] else Unquoted(line[n..]);
      var v := ValueLength(k, rest);
      if v > 0 then Some(Span(line[..n], rest[..v], if k.Image? then rest[v..] else Unquoted(rest[v..])))
      else if k.History? && n > b && InValue(k, line[n - 1]) then Some(Span(line[..n - 1], [line[n - 1]], Unquoted(line[n..])))
      else None
  }

  // fmt's %q, for printable ASCII text.
  function Escaped(s: string): string
  {
    if s == [] then []
    else if s[0] == '"' || s[0] == '\\' then ['\\', s[0]] + Escaped(s[1..])
    else [s[0]] + Escaped(s[1..])
  }

  function Quoted(s: string): string
  {
    ['"'] + Escaped(s) + ['"']
  }

  // ---- Reading -------------------------------------------------------------------------

  // The first match of a key in the file.
  function First(lines: seq<Line>, k: Key): Option<string>
  {
    if lines == [] then None
    else if Spanned(lines[0], k).Some? then Some(Spanned(lines[0], k).value.value)
    else First(lines[1..], k)
  }

  method FindFirst(lines: seq<Line>, k: Key) returns (r: Option<string>)
    ensures r == First(lines, k)
  {
    hide Spanned;
    for i := 0 to |lines|
      invariant First(lines, k) == First(lines[i..], k)
    {
      assert lines[i..][1..] == lines[i + 1..] && lines[i..][0] == lines[i];
      if Spanned(lines[i], k).Some? {
        return Some(Spanned(lines[i], k).value.value);
      }
    }
    r := None;
  }

  // The entries of a history value: trimmed, and not blank.
  function Refs(parts: seq<string>): seq<Ref>
  {
    if parts == [] then []
    else (if Trim(parts[0]) != [] then [Trim(parts[0])] else []) + Refs(parts[1..])
  }

  function HistoryOf(lines: seq<Line>): seq<Ref>
  {
    if First(lines, History).Some? then Refs(Split(First(lines, History).value, ','))
    else if First(lines, Previous).Some? then [First(lines, Previous).value]
    else []
  }

  method ParseHistory(lines: seq<Line>) returns (history: seq<Ref>)
    ensures history == HistoryOf(lines)
  {
    hide Spanned, Split, Trim;
    history := [];
    var value := FindFirst(lines, History);
    if value.Some? {
      var parts := Split(value.value, ',');
      for i := 0 to |parts|
        invariant history + Refs(parts[i..]) == Refs(parts)
      {
        assert parts[i..][1..] == parts[i + 1..] && parts[i..][0] == parts[i];
        var p := Trim(parts[i]);
        if p != [] {
          history := history + [p];
        }
      }
    } else {
      var previous := FindFirst(lines, Previous);
      if previous.Some? {
        history := [previous.value];
      }
    }
  }

  // ---- Writing -------------------------------------------------------------------------

  function Replaced(line: Line, k: Key, text: string): Line
  {
    match Spanned(line, k)
    case None => line
    case Some(s) => s.head + (text + s.tail)
  }

  function ReplaceAll(lines: seq<Line>, k: Key, text: string): (r: seq<Line>)
    ensures |r| == |lines|
  {
    if lines == [] then [] else [Replaced(lines[0], k, text)] + ReplaceAll(lines[1..], k, text)
  }

  function Matches(lines: seq<Line>, k: Key): nat
  {
    if lines == [] then 0 else (if Spanned(lines[0], k).Some? then 1 else 0) + Matches(lines[1..], k)
  }

  // ReplaceAllFunc: every match rewritten, the matches counted, the first value
  // remembered.
  method ReplaceMatches(lines: seq<Line>, k: Key, text: string) returns (out: seq<Line>, count: nat, displaced: Option<string>)
    ensures out == ReplaceAll(lines, k, text) && count == Matches(lines, k) && displaced == First(lines, k)
    ensures count == 0 <==> displaced.None?
  {
    hide Spanned;
    out, count, displaced := [], 0, None;
    for i := 0 to |lines|
      invariant out + ReplaceAll(lines[i..], k, text) == ReplaceAll(lines, k, text)
      invariant count + Matches(lines[i..], k) == Matches(lines, k)
      invariant First(lines, k) == (if displaced.Some? then displaced else First(lines[i..], k))
      invariant count == 0 <==> displaced.None?
    {
      assert lines[i..][1..] == lines[i + 1..] && lines[i..][0] == lines[i];
      var s := Spanned(lines[i], k);
      if s.Some? {
        out := out + [s.value.head + (text + s.value.tail)];
        count := count + 1;
        if displaced.None? {
          displaced := Some(s.value.value);
        }
      } else {
        out := out + [lines[i]];
      }
    }
  }

  // A line that is a key alone opens a block; annotations go below it.
  predicate Opens(line: Line, k: Key)
  {
    KeyEnd(line, k).Some? && Spaces(line[KeyEnd(line, k).value..]) == |line| - KeyEnd(line, k).value
  }

  function Anchor(lines: seq<Line>, k: Key): (r: Option<nat>)
    ensures r.Some? ==> r.value < |lines| && Opens(lines[r.value], k) && forall j | 0 <= j < r.value :: !Opens(lines[j], k)
    ensures r.None? ==> forall j | 0 <= j < |lines| :: !Opens(lines[j], k)
  {
    if lines == [] then None
    else if Opens(lines[0], k) then Some(0)
    else
      var rest := Anchor(lines[1..], k);
      if rest.None? then None else Some(rest.value + 1)
  }

  function Indent(line: Line): string
  {
    line[..Spaces(line)] + [' ', ' ']
  }

  function AnnotationLine(indent: string, k: Key, value: string): Line
  {
    indent + KeyText(k) + [' '] + Quoted(value)
  }

  // Below the first annotations line, or, in a new annotations block, below the
  // first metadata line; without either, nowhere.
  function Injected(lines: seq<Line>, k: Key, value: string): seq<Line>
  {
    match Anchor(lines, Annotations)
    case Some(i) => lines[..i + 1] + [AnnotationLine(Indent(lines[i]), k, value)] + lines[i + 1..]
    case None =>
      match Anchor(lines, Metadata)
      case Some(i) =>
        lines[..i + 1]
        + [Indent(lines[i]) + KeyText(Annotations), AnnotationLine(Indent(lines[i]) + [' ', ' '], k, value)]
        + lines[i + 1..]
      case None => lines
  }

  // An annotation updated wherever it stands, or injected.
  function Annotated(lines: seq<Line>, k: Key, value: string): seq<Line>
  {
    if First(lines, k).Some? then ReplaceAll(lines, k, Quoted(value)) else Injected(lines, k, value)
  }

  // The manifest after its images have been set to target.
  function RolledBack(lines: seq<Line>, target: Ref): seq<Line>
    requires First(lines, Image).Some?
  {
    var displaced := First(lines, Image).value;
    var images := ReplaceAll(lines, Image, target);
    if displaced == target then images
    else
      var updated := Updated(displaced, HistoryOf(lines), target);
      Annotated(Annotated(images, Previous, displaced), History, Join(updated, ','))
  }

  // ---- The rollback, rewriting the file -----------------------------------------------------

  datatype Outcome = NoTarget | NoImage | Done(target: Ref, count: nat, history: seq<Ref>)

  // What a rollback answers and leaves of the file: an error leaves it alone.
  function Rewritten(lines: seq<Line>, to: string, generation: int): (Outcome, seq<Line>)
  {
    var target := Target(HistoryOf(lines), to, generation);
    if target.None? then (NoTarget, lines)
    else if First(lines, Image).None? then (NoImage, lines)
    else
      var t := target.value;
      (Done(t, Matches(lines, Image), Updated(First(lines, Image).value, HistoryOf(lines), t)), RolledBack(lines, t))
  }

  class ManifestFile {
    var lines: seq<Line>

    constructor (ls: seq<Line>)
      ensures lines == ls
    {
      lines := ls;
    }

    method Annotate(k: Key, value: string)
      modifies this
      ensures lines == Annotated(old(lines), k, value)
    {
      hide Spanned, Injected, Quoted;
      var found := FindFirst(lines, k);
      if found.Some? {
        var out, count, first := ReplaceMatches(lines, k, Quoted(value));
        lines := out;
      } else {
        lines := Injected(lines, k, value);
      }
    }

    // --to wins; else it goes that many generations back in the file's own history,
    // one when the number is not positive.
    method Rollback(to: string, generation: int) returns (r: Outcome)
      modifies this
      ensures (r, lines) == Rewritten(old(lines), to, generation)
      ensures var history, back := HistoryOf(old(lines)), if generation <= 0 then 1 else generation;
              && (r.NoTarget? <==> Blank(to) && back > |history|)
              && (r.NoImage? <==> !r.NoTarget? && First(old(lines), Image).None?)
              && (r.Done? && Blank(to) ==> back <= |history| && r.target == history[back - 1])
              && (r.Done? && !Blank(to) ==> r.target == Trim(to))
              && (!r.Done? ==> lines == old(lines))
    {
      hide HistoryOf, Updated, Annotated, Spanned, Trim;
      var history := ParseHistory(lines);
      var target := Target(history, to, generation);
      if target.None? {
        return NoTarget;
      }
      var rewritten, count, displaced := ReplaceMatches(lines, Image, target.value);
      if count == 0 {
        return NoImage;
      }
      var updated := UpdateHistory(displaced.value, history, target.value);
      lines := rewritten;
      if displaced.value != target.value {
        Annotate(Previous, displaced.value);
        Annotate(History, Join(updated, ','));
      }
      r := Done(target.value, count, updated);
    }
  }
}
