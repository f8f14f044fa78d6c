// Small vocabulary shared by every module: optional values, duplicate-free lists,
// and the handful of string operations the Go code uses (strings.TrimSpace,
// strings.ToLower, strings.Split, strings.Join), on ASCII text whose white space
// is blanks, tabs and line ends.

module Text {

  datatype Option<+T> = None | Some(value: T)

  predicate Distinct<T(==)>(s: seq<T>)
  {
    forall i, j | 0 <= i < j < |s| :: s[i] != s[j]
  }

  // A duplicate-free list has as many elements as its set of elements.
  lemma {:induction false} DistinctSize<T>(s: seq<T>)
    requires Distinct(s)
    ensures |set x | x in s| == |s|
  {
    if s != [] {
      var k := |s| - 1;
      DistinctSize(s[..k]);
      assert (set x | x in s) == (set x | x in s[..k]) + {s[k]};
    }
  }

  predicate IsSpace(c: char)
  {
    c == ' ' || c == '\t' || c == '\n' || c == '\r'
  }

  function TrimLeft(s: string): (r: string)
    ensures r == [] || !IsSpace(r[0])
    ensures |r| <= |s| && r == s[|s| - |r|..]
  {
    if s != [] && IsSpace(s[0]) then TrimLeft(s[1..]) else s
  }

  function TrimRight(s: string): (r: string)
    ensures r == [] || !IsSpace(r[|r| - 1])
    ensures |r| <= |s| && r == s[..|r|]
  {
    if s != [] && IsSpace(s[|s| - 1]) then TrimRight(s[..|s| - 1]) else s
  }

  // strings.TrimSpace
  function Trim(s: string): string
  {
    TrimRight(TrimLeft(s))
  }

  // strings.TrimSpace(s) == ""
  predicate Blank(s: string)
  {
    Trim(s) == ""
  }

  function Lower(s: string): (r: string)
    ensures |r| == |s|
  {
    seq(|s|, i requires 0 <= i < |s| => if 'A' <= s[i] <= 'Z' then s[i] - 'A' + 'a' else s[i])
  }

  // No capital is left, each has become its small letter, and nothing else changes.
  lemma LowerIs(s: string, i: nat)
    requires i < |s|
    ensures !('A' <= Lower(s)[i] <= 'Z')
    ensures if 'A' <= s[i] <= 'Z' then Lower(s)[i] as int == s[i] as int + 32 else Lower(s)[i] == s[i]
  {
    assert 'a' as int == 'A' as int + 32;
  }

  // The pieces of s between occurrences of sep: strings.Split for a
  // one-character separator.
  function Split(s: string, sep: char): (r: seq<string>)
    ensures |r| >= 1
    ensures forall p, i | p in r && 0 <= i < |p| :: p[i] != sep
  {
    if s == [] then [[]]
    else
      var rest := Split(s[1..], sep);
      if s[0] == sep then [[]] + rest else [[s[0]] + rest[0]] + rest[1..]
  }

  // strings.Join for a one-character separator.
  function Join(parts: seq<string>, sep: char): string
  {
    if parts == [] then []
    else if |parts| == 1 then parts[0]
    else parts[0] + [sep] + Join(parts[1..], sep)
  }

  lemma {:induction false} SplitHead(p: string, sep: char, rest: string)
    requires sep !in p
    ensures Split(p + [sep] + rest, sep) == [p] + Split(rest, sep)
  {
    var s := p + [sep] + rest;
    if p == [] {
      assert s[0] == sep && s[1..] == rest;
    } else {
      assert p[0] in p;
      assert s[1..] == p[1..] + [sep] + rest;
      SplitHead(p[1..], sep, rest);
      assert s[0] == p[0] && [s[0]] + p[1..] == p;
    }
  }

  lemma {:induction false} SplitAtom(p: string, sep: char)
    requires sep !in p
    ensures Split(p, sep) == [p]
  {
    if p != [] {
      SplitAtom(p[1..], sep);
      assert p == [p[0]] + p[1..] && p[0] in p;
    }
  }

  // Splitting a joined list gives the list back, for parts free of the separator.
  lemma {:induction false} SplitJoin(parts: seq<string>, sep: char)
    requires parts != []
    requires forall p | p in parts :: sep !in p
    ensures Split(Join(parts, sep), sep) == parts
  {
    if |parts| == 1 {
      SplitAtom(parts[0], sep);
    } else {
      SplitJoin(parts[1..], sep);
      SplitHead(parts[0], sep, Join(parts[1..], sep));
    }
  }

  // Text without white space at its ends is its own trimming.
  lemma TrimmedIsFixed(s: string)
    requires s == [] || (!IsSpace(s[0]) && !IsSpace(s[|s| - 1]))
    ensures Trim(s) == s
  {
  }

  // Trimming takes the white space off both ends and nothing else.
  lemma {:induction false} TrimTakesEnds(a: string, s: string, b: string)
    requires (forall i | 0 <= i < |a| :: IsSpace(a[i])) && (forall i | 0 <= i < |b| :: IsSpace(b[i]))
    requires s == [] || (!IsSpace(s[0]) && !IsSpace(s[|s| - 1]))
    ensures Trim(a + s + b) == s
    decreases |a|, |b|
  {
    if a != [] {
      assert (a + s + b)[1..] == a[1..] + s + b;
      TrimTakesEnds(a[1..], s, b);
    } else if s == [] {
      AllSpace(b);
      assert a + s + b == b;
    } else {
      assert a + s + b == s + b;
      TrimRightTakes(s, b);
    }
  }

  lemma {:induction false} AllSpace(b: string)
    requires forall i | 0 <= i < |b| :: IsSpace(b[i])
    ensures TrimLeft(b) == []
  {
    if b != [] {
      AllSpace(b[1..]);
    }
  }

  lemma {:induction false} TrimRightTakes(s: string, b: string)
    requires s != [] && !IsSpace(s[|s| - 1]) && forall i | 0 <= i < |b| :: IsSpace(b[i])
    ensures TrimRight(s + b) == s
  {
    if b != [] {
      assert (s + b)[..|s + b| - 1] == s + b[..|b| - 1];
      TrimRightTakes(s, b[..|b| - 1]);
    } else {
      assert s + b == s;
    }
  }
}
