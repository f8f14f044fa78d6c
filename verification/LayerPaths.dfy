// What the path tests of the layer scan mean, component by component.
// Source: cmd/pokkum/explain.go, locateFileInLayers, isUnderDir. The standard is
// the OCI Image Format Specification, "Image Layer Filesystem Changeset", section
// "Whiteouts".

module LayerPaths {
  import opened Text
  import opened Layers

  function Parts(p: Path): seq<string>
  {
    Split(p, '/')
  }

  // Splitting at one separator splits both sides.
  lemma {:induction false} PartsOfBoth(a: string, b: string)
    ensures Parts(a + ['/'] + b) == Parts(a) + Parts(b)
  {
    var s := a + ['/'] + b;
    if a == [] {
      assert s[1..] == b;
    } else {
      assert s[1..] == a[1..] + ['/'] + b && s[0] == a[0];
      PartsOfBoth(a[1..], b);
    }
  }

  lemma {:induction false} JoinParts(p: Path)
    ensures Join(Parts(p), '/') == p
  {
    if p != [] {
      var rest := Parts(p[1..]);
      JoinParts(p[1..]);
      if p[0] == '/' {
        assert Join([[]] + rest, '/') == [] + ['/'] + Join(rest, '/');
      } else {
        assert ([[p[0]] + rest[0]] + rest[1..])[1..] == rest[1..];
        assert p == [p[0]] + p[1..];
      }
    }
  }

  lemma {:induction false} JoinTwo(a: seq<string>, b: seq<string>)
    requires a != [] && b != []
    ensures Join(a + b, '/') == Join(a, '/') + ['/'] + Join(b, '/')
  {
    if |a| == 1 {
      assert (a + b)[1..] == b;
    } else {
      assert (a + b)[1..] == a[1..] + b;
      JoinTwo(a[1..], b);
    }
  }

  lemma SameParts(p: Path, q: Path)
    ensures Parts(p) == Parts(q) <==> p == q
  {
    JoinParts(p);
    JoinParts(q);
  }

  // Below a directory is having its components first, and more.
  lemma BelowByParts(p: Path, d: Path)
    ensures Below(p, d) <==> Parts(d) < Parts(p)
  {
    hide Split;
    if Below(p, d) {
      var rest := p[|d| + 1..];
      assert p == d + ['/'] + rest;
      PartsOfBoth(d, rest);
    }
    if Parts(d) < Parts(p) {
      var more := Parts(p)[|Parts(d)|..];
      assert Parts(p) == Parts(d) + more;
      JoinTwo(Parts(d), more);
      JoinParts(p);
      JoinParts(d);
      assert p == (d + ['/']) + Join(more, '/');
    }
  }

  lemma LastPart(p: Path)
    ensures Base(p) == Parts(p)[|Parts(p)| - 1]
    ensures LastSlash(p).Some? ==> Parts(p) == Parts(Dir(p)) + [Base(p)]
    ensures LastSlash(p).None? ==> Parts(p) == [p]
  {
    var n := LastSlash(p);
    if n.Some? {
      assert p == p[..n.value] + ['/'] + p[n.value + 1..];
      PartsOfBoth(p[..n.value], p[n.value + 1..]);
      SplitAtom(p[n.value + 1..], '/');
    } else {
      SplitAtom(p, '/');
    }
  }

  // Clean and relative.
  predicate Clean(p: Path)
  {
    forall c | c in Parts(p) :: c != [] && c != DOT
  }

  // The directory an entry lies in, as components; the root has none.
  function DirParts(p: Path): seq<string>
  {
    Parts(p)[..|Parts(p)| - 1]
  }

  lemma DirByParts(p: Path)
    requires Clean(p)
    ensures Dir(p) == DOT <==> DirParts(p) == []
    ensures Dir(p) != [] && (Dir(p) != DOT ==> DirParts(p) == Parts(Dir(p)))
  {
    LastPart(p);
    if LastSlash(p).Some? {
      assert Parts(p)[..|Parts(p)| - 1] == Parts(Dir(p));
      assert Parts(Dir(p))[0] in Parts(p);
      SplitAtom(DOT, '/');
      SplitAtom([], '/');
    }
  }

  lemma WhitesOutByParts(e: Entry)
    requires Clean(e.path) && IsWhiteout(e)
    ensures Parts(WhitesOut(e)) == DirParts(e.path) + [Base(e.path)[4..]]
  {
    hide Split, IsOpaque;
    var name := Base(e.path)[4..];
    LastPart(e.path);
    DirByParts(e.path);
    NameIsOnePart(e.path);
    if Dir(e.path) != DOT {
      PartsOfBoth(Dir(e.path), name);
    }
  }

  lemma NameIsOnePart(p: Path)
    requires |Base(p)| >= 4
    ensures Parts(Base(p)[4..]) == [Base(p)[4..]]
  {
    SplitAtom(Base(p)[4..], '/');
  }

  // The marker an entry's name makes it, by the name alone.
  datatype Role = Opaque | Whiteout(of: seq<string>) | Plain

  function RoleOf(p: Path): Role
  {
    var dir, name := DirParts(p), Parts(p)[|Parts(p)| - 1];
    if name == ['.', 'w', 'h', '.', '.', 'w', 'h', '.', '.', 'o', 'p', 'q'] then Opaque
    else if ['.', 'w', 'h', '.'] <= name then Whiteout(dir + [name[4..]])
    else Plain
  }

  lemma RoleTells(e: Entry, p: Path)
    requires Clean(e.path)
    ensures e.path == p <==> Parts(e.path) == Parts(p)
    ensures IsOpaque(e) <==> RoleOf(e.path).Opaque?
    ensures IsWhiteout(e) <==> RoleOf(e.path).Whiteout?
    ensures IsWhiteout(e) ==> (WhitesOut(e) == p <==> RoleOf(e.path).of == Parts(p))
    ensures IsUnderDir(p, Dir(e.path)) <==> DirParts(e.path) == [] || DirParts(e.path) < Parts(p)
  {
    hide Split, WhitesOut;
    SameParts(e.path, p);
    LastPart(e.path);
    DirByParts(e.path);
    hide LastSlash, Dir;
    BelowByParts(p, Dir(e.path));
    if IsWhiteout(e) {
      WhitesOutByParts(e);
      SameParts(WhitesOut(e), p);
    }
  }

  // What a layer's entry takes away of the layers below, read off the components:
  // an opaque marker, everything below its directory; a whiteout, the path it is
  // of and everything below it; a file, everything below its own path.
  lemma HidesByParts(e: Entry, p: Path)
    requires Clean(e.path)
    ensures Hides(e, p) <==>
            match RoleOf(e.path)
            case Opaque => DirParts(e.path) == [] || DirParts(e.path) < Parts(p)
            case Whiteout(of) => of <= Parts(p)
            case Plain => !e.dir && Parts(e.path) < Parts(p)
  {
    hide Split, WhitesOut;
    LastPart(e.path);
    RoleTells(e, p);
    BelowByParts(p, e.path);
    if IsWhiteout(e) {
      WhitesOutByParts(e);
      BelowByParts(p, WhitesOut(e));
    }
    hide LastSlash, Dir, DirParts;
  }

  // What a layer says of a path, read off the components and names of its entries.
  lemma VerdictByParts(es: Entries, p: Path)
    requires forall e | e in es :: Clean(e.path)
    ensures LayerVerdict(es, p) ==
            if exists e | e in es :: Parts(e.path) == Parts(p) then Holds
            else if exists e | e in es :: RoleOf(e.path) == Whiteout(Parts(p)) then Deletes
            else if exists e | e in es :: RoleOf(e.path) == Opaque && (DirParts(e.path) == [] || DirParts(e.path) < Parts(p))
            then Resets
            else Silent
  {
    hide WhitesOut, Dir, Base, Parts, DirParts, Clean, IsMarker, IsOpaque, IsWhiteout, IsUnderDir, RoleOf;
    forall e | e in es
      ensures e.path == p <==> Parts(e.path) == Parts(p)
      ensures IsWhiteout(e) && WhitesOut(e) == p <==> RoleOf(e.path) == Whiteout(Parts(p))
      ensures IsOpaque(e) && IsUnderDir(p, Dir(e.path)) <==>
              RoleOf(e.path) == Opaque && (DirParts(e.path) == [] || DirParts(e.path) < Parts(p))
    {
      RoleTells(e, p);
    }
  }
}
