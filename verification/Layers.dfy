// Which layer a file of the image came from: a reverse, early-exit scan of the
// layers against the meaning of the image, all layers applied forward.
// Source: cmd/pokkum/explain.go, locateFileInLayers, isUnderDir;
// internal/adapters/layerdiffutils/listing.go. The standard is the OCI Image
// Format Specification, "Image Layer Filesystem Changeset", section "Whiteouts".

module Layers {
  import opened Text

  // Paths are clean and relative, as path.Clean leaves them.
  type Path = string

  // One tar entry: its name, and whether it is a directory.
  datatype Entry = Entry(path: Path, dir: bool)
  type Entries = seq<Entry>

  const WHITEOUT := ['.', 'w', 'h', '.']
  const OPAQUE := ['.', 'w', 'h', '.', '.', 'w', 'h', '.', '.', 'o', 'p', 'q']
  const DOT := ['.']

  function LastSlash(p: Path): (n: Option<nat>)
    ensures n.Some? ==> n.value < |p| && p[n.value] == '/' && '/' !in p[n.value + 1..]
    ensures n.None? ==> '/' !in p
  {
    if p == [] then None
    else if p[|p| - 1] == '/' then Some(|p| - 1)
    else LastSlash(p[..|p| - 1])
  }

  // path.Base and path.Dir of a clean relative path.
  function Base(p: Path): string
  {
    if LastSlash(p).Some? then p[LastSlash(p).value + 1..] else p
  }

  function Dir(p: Path): Path
  {
    if LastSlash(p).Some? then p[..LastSlash(p).value] else DOT
  }

  predicate HasPrefix(s: string, prefix: string)
  {
    |prefix| <= |s| && s[..|prefix|] == prefix
  }

  // A name the format reserves for markers; such entries are never files.
  predicate IsMarker(p: Path)
  {
    HasPrefix(Base(p), WHITEOUT)
  }

  predicate IsOpaque(e: Entry)
  {
    Base(e.path) == OPAQUE
  }

  predicate IsWhiteout(e: Entry)
  {
    IsMarker(e.path) && !IsOpaque(e)
  }

  // The path a whiteout deletes.
  function WhitesOut(e: Entry): Path
    requires IsWhiteout(e)
  {
    var name := Base(e.path)[|WHITEOUT|..];
    if Dir(e.path) == DOT then name else Dir(e.path) + ['/'] + name
  }

  // Strictly below d.
  predicate Below(p: Path, d: Path)
  {
    HasPrefix(p, d + ['/'])
  }

  predicate IsUnderDir(p: Path, d: Path)
  {
    d == DOT || d == [] || Below(p, d)
  }

  // ---- The scan ---------------------------------------------------------------------

  datatype Layer = Unreadable | Readable(entries: Entries)
  datatype Status = NotFound | Found(layer: nat) | Deleted(layer: nat) | Ambiguous(layer: nat)
  datatype Answer = Failed(layer: nat) | Located(status: Status)

  datatype Verdict = Silent | Holds | Deletes | Resets

  // What one layer says about p: adding it outweighs deleting it, which
  // outweighs resetting its directory.
  function LayerVerdict(es: Entries, p: Path): Verdict
  {
    if exists e | e in es :: e.path == p then Holds
    else if exists e | e in es :: IsWhiteout(e) && WhitesOut(e) == p then Deletes
    else if exists e | e in es :: IsOpaque(e) && IsUnderDir(p, Dir(e.path)) then Resets
    else Silent
  }

  // The topmost layer with something to say settles it; an unreadable layer
  // reached before that is an error.
  function Scan(layers: seq<Layer>, p: Path): Answer
  {
    if layers == [] then Located(NotFound)
    else
      var i := |layers| - 1;
      match layers[i]
      case Unreadable => Failed(i)
      case Readable(es) =>
        match LayerVerdict(es, p)
        case Holds => Located(Found(i))
        case Deletes => Located(Deleted(i))
        case Resets => Located(Ambiguous(i))
        case Silent => Scan(layers[..i], p)
  }

  method LocateFileInLayers(layers: seq<Layer>, p: Path) returns (r: Answer)
    ensures r == Scan(layers, p)
  {
    var i := |layers|;
    assert layers[..i] == layers;
    while i > 0
      invariant 0 <= i <= |layers|
      invariant Scan(layers, p) == Scan(layers[..i], p)
    {
      i := i - 1;
      assert layers[..i + 1][..i] == layers[..i] && layers[..i + 1][i] == layers[i];
      if layers[i].Unreadable? {
        return Failed(i);
      }
      var verdict := ReadLayer(layers[i].entries, p);
      match verdict {
        case Holds => return Located(Found(i));
        case Deletes => return Located(Deleted(i));
        case Resets => return Located(Ambiguous(i));
        case Silent =>
      }
    }
    r := Located(NotFound);
  }

  // One pass over a layer's entries, setting three flags.
  method ReadLayer(es: Entries, p: Path) returns (v: Verdict)
    ensures v == LayerVerdict(es, p)
  {
    hide WhitesOut, IsUnderDir, IsOpaque, Dir;
    var found, deleted, ambiguous := false, false, false;
    for k := 0 to |es|
      invariant found <==> exists j | 0 <= j < k :: es[j].path == p
      invariant deleted <==> exists j | 0 <= j < k :: es[j].path != p && IsWhiteout(es[j]) && WhitesOut(es[j]) == p
      invariant ambiguous <==> exists j | 0 <= j < k ::
                  es[j].path != p && !(IsWhiteout(es[j]) && WhitesOut(es[j]) == p) && IsOpaque(es[j]) && IsUnderDir(p, Dir(es[j].path))
    {
      if es[k].path == p {
        found := true;
      } else if IsWhiteout(es[k]) && WhitesOut(es[k]) == p {
        deleted := true;
      } else if IsOpaque(es[k]) && IsUnderDir(p, Dir(es[k].path)) {
        ambiguous := true;
      }
    }
    v := if found then Holds else if deleted then Deletes else if ambiguous then Resets else Silent;
  }

  // ---- The image, layer on layer --------------------------------------------------------

  // An entry hides p from the layers below: a whiteout of p or of a directory
  // above it, an opaque reset of a directory above it, or a file that takes the
  // place of a directory above it.
  predicate Hides(e: Entry, p: Path)
  {
    || (IsWhiteout(e) && WhitesOut(e) == p)
    || (IsOpaque(e) && IsUnderDir(p, Dir(e.path)))
    || HidesAbove(e, p)
  }

  predicate HidesAbove(e: Entry, p: Path)
  {
    || (IsWhiteout(e) && Below(p, WhitesOut(e)))
    || (!IsMarker(e.path) && !e.dir && Below(p, e.path))
  }

  // The files of the image and the layer each comes from: every layer hides what
  // it hides of the lower ones, then adds its own entries; markers are no files.
  function Overlay(layers: seq<Entries>): map<Path, nat>
  {
    if layers == [] then map[]
    else
      var i := |layers| - 1;
      var lower, es := Overlay(layers[..i]), layers[i];
      (map p | p in lower && !(exists e | e in es :: Hides(e, p)) :: lower[p])
      + (map e | e in es && !IsMarker(e.path) :: e.path := i)
  }

  // ---- Agreement -------------------------------------------------------------------------

  function Readables(layers: seq<Entries>): (r: seq<Layer>)
    ensures |r| == |layers| && forall i | 0 <= i < |r| :: r[i] == Readable(layers[i])
  {
    seq(|layers|, i requires 0 <= i < |layers| => Readable(layers[i]))
  }

  predicate Agrees(status: Status, files: map<Path, nat>, p: Path)
  {
    if status.Found? then p in files && files[p] == status.layer else p !in files
  }

  // Some layer above i hides a directory above p without a word about p itself.
  predicate AncestorHidden(layers: seq<Entries>, i: nat, p: Path)
  {
    exists j | i < j < |layers| :: exists e | e in layers[j] :: HidesAbove(e, p)
  }

  // A find that is wrong: of a marker name, or under a directory hidden since.
  predicate FalseFind(layers: seq<Entries>, status: Status, p: Path)
  {
    status.Found? && (IsMarker(p) || AncestorHidden(layers, status.layer, p))
  }

  // One more layer on top, as the fold and as the scan see it.
  lemma TopLayer(layers: seq<Entries>, p: Path)
    requires layers != []
    ensures var i := |layers| - 1;
            var lower, es := Overlay(layers[..i]), layers[i];
            if !IsMarker(p) && exists e | e in es :: e.path == p then p in Overlay(layers) && Overlay(layers)[p] == i
            else if exists e | e in es :: Hides(e, p) then p !in Overlay(layers)
            else (p in Overlay(layers) <==> p in lower) && (p in lower ==> Overlay(layers)[p] == lower[p])
  {
  }

  // Markers never become files.
  lemma {:induction false} MarkersAreNoFiles(layers: seq<Entries>, p: Path)
    requires IsMarker(p)
    ensures p !in Overlay(layers)
  {
    hide IsMarker;
    if layers != [] {
      MarkersAreNoFiles(layers[..|layers| - 1], p);
    }
  }

  // A layer that hides only directories above p, under a scan already settled
  // further down.
  lemma SilentLayer(layers: seq<Entries>, status: Status, p: Path)
    requires layers != [] && LayerVerdict(layers[|layers| - 1], p) == Silent
    requires status.Found? ==> status.layer < |layers| - 1
    requires var lower := layers[..|layers| - 1]; Agrees(status, Overlay(lower), p) <==> !FalseFind(lower, status, p)
    ensures Agrees(status, Overlay(layers), p) <==> !FalseFind(layers, status, p)
  {
    hide Overlay, IsMarker, HidesAbove, WhitesOut, IsUnderDir, IsOpaque, IsWhiteout;
    var i := |layers| - 1;
    var lower := layers[..i];
    TopLayer(layers, p);
    if e :| e in layers[i] && HidesAbove(e, p) {
      assert Hides(e, p);
      assert status.Found? ==> AncestorHidden(layers, status.layer, p);
    } else {
      assert forall e | e in layers[i] :: !Hides(e, p);
      if status.Found? {
        assert forall j | status.layer < j < i :: lower[j] == layers[j];
        assert AncestorHidden(layers, status.layer, p) <==> AncestorHidden(lower, status.layer, p);
      }
    }
  }

  // A top layer with something to say is right, unless p is a marker.
  lemma SettlingLayer(layers: seq<Entries>, p: Path)
    requires layers != [] && LayerVerdict(layers[|layers| - 1], p) != Silent
    ensures var i := |layers| - 1;
            var status := match LayerVerdict(layers[i], p) case Holds => Found(i) case Deletes => Deleted(i) case _ => Ambiguous(i);
            Agrees(status, Overlay(layers), p) <==> !FalseFind(layers, status, p)
  {
    hide Overlay, IsMarker, HidesAbove, WhitesOut, IsUnderDir, IsOpaque, IsWhiteout;
    TopLayer(layers, p);
    if IsMarker(p) {
      MarkersAreNoFiles(layers, p);
    }
  }

  lemma {:induction false} ReadableScan(layers: seq<Entries>, p: Path)
    ensures Scan(Readables(layers), p).Located?
    ensures var status := Scan(Readables(layers), p).status;
            && (status.Found? ==> status.layer < |layers|)
            && (Agrees(status, Overlay(layers), p) <==> !FalseFind(layers, status, p))
  {
    if layers != [] {
      var i := |layers| - 1;
      assert Readables(layers)[..i] == Readables(layers[..i]);
      ReadableScan(layers[..i], p);
      hide IsMarker, HidesAbove, WhitesOut, IsUnderDir, IsOpaque, IsWhiteout, Overlay, Agrees, FalseFind;
      if LayerVerdict(layers[i], p) == Silent {
        SilentLayer(layers, Scan(Readables(layers[..i]), p).status, p);
      } else {
        SettlingLayer(layers, p);
      }
    }
  }

  // ---- When the scan is right ------------------------------------------------------------

  // Every layer above i could be read and says nothing about p.
  predicate SilentAbove(layers: seq<Layer>, i: int, p: Path)
    requires -1 <= i
  {
    forall j | i < j < |layers| :: layers[j].Readable? && LayerVerdict(layers[j].entries, p) == Silent
  }

  // The first layer from the top with anything to say adds p itself, yet p is a
  // marker name, or a layer above hides a directory p lies in. Of the layers and
  // the path alone: nothing here asks what the scan answered.
  predicate Misleading(layers: seq<Entries>, p: Path)
  {
    exists i | 0 <= i < |layers| ::
      && LayerVerdict(layers[i], p) == Holds && SilentAbove(Readables(layers), i, p)
      && (IsMarker(p) || AncestorHidden(layers, i, p))
  }

  // The layer whose verdict is the answer is the topmost that is not silent.
  lemma {:induction false} ScanSettles(layers: seq<Layer>, p: Path)
    ensures match Scan(layers, p)
            case Failed(i) => i < |layers| && layers[i].Unreadable? && SilentAbove(layers, i, p)
            case Located(NotFound) => SilentAbove(layers, -1, p)
            case Located(status) =>
              var i := status.layer;
              && i < |layers| && layers[i].Readable? && SilentAbove(layers, i, p)
              && LayerVerdict(layers[i].entries, p) == if status.Found? then Holds else if status.Deleted? then Deletes else Resets
  {
    hide LayerVerdict;
    if layers != [] {
      ScanSettles(layers[..|layers| - 1], p);
    }
  }

  // What each answer says of the layer it names, and that the layers above say
  // nothing: the entry itself; a whiteout of it and no such entry; an opaque reset of
  // a directory it lies in, and neither.
  lemma AnswersMean(layers: seq<Layer>, p: Path)
    ensures Scan(layers, p).Located? && !Scan(layers, p).status.NotFound? ==>
              var status := Scan(layers, p).status;
              && status.layer < |layers| && layers[status.layer].Readable? && SilentAbove(layers, status.layer, p)
              && var es := layers[status.layer].entries;
                 && (status.Found? <==> Adds(es, p))
                 && (status.Deleted? <==> !Adds(es, p) && Whites(es, p))
                 && (status.Ambiguous? <==> !Adds(es, p) && !Whites(es, p) && ResetsAbove(es, p))
    ensures Scan(layers, p) == Located(NotFound) ==>
              forall i | 0 <= i < |layers| ::
                layers[i].Readable? && !Adds(layers[i].entries, p) && !Whites(layers[i].entries, p) && !ResetsAbove(layers[i].entries, p)
  {
    ScanSettles(layers, p);
    hide Scan, IsWhiteout, WhitesOut, IsOpaque, IsUnderDir, Dir;
  }

  predicate Adds(es: Entries, p: Path)
  {
    exists e | e in es :: e.path == p
  }

  predicate Whites(es: Entries, p: Path)
  {
    exists e | e in es :: IsWhiteout(e) && WhitesOut(e) == p
  }

  predicate ResetsAbove(es: Entries, p: Path)
  {
    exists e | e in es :: IsOpaque(e) && IsUnderDir(p, Dir(e.path))
  }

  // What the layers hold, including those that cannot be read.
  predicate Hold(layers: seq<Layer>, image: seq<Entries>)
  {
    && |layers| == |image|
    && forall i | 0 <= i < |layers| && layers[i].Readable? :: layers[i].entries == image[i]
  }

  // An answer does not depend on layers that could not be read.
  lemma {:induction false} UnreadUnseen(layers: seq<Layer>, image: seq<Entries>, p: Path)
    requires Hold(layers, image)
    ensures Scan(layers, p).Located? ==> Scan(layers, p) == Scan(Readables(image), p)
  {
    hide LayerVerdict;
    if layers != [] {
      var i := |layers| - 1;
      UnreadUnseen(layers[..i], image[..i], p);
      assert Readables(image)[..i] == Readables(image[..i]);
    }
  }

  // For every path and whatever the layers hold: the scan fails exactly when it
  // comes to an unreadable layer before any that says something; and every other
  // answer agrees with the image, whatever the unread layers hold, exactly unless
  // layers and path are misleading.
  lemma ScanIsRight(layers: seq<Layer>, image: seq<Entries>, p: Path)
    requires Hold(layers, image)
    ensures Scan(layers, p).Failed? <==> exists i | 0 <= i < |layers| :: layers[i].Unreadable? && SilentAbove(layers, i, p)
    ensures Scan(layers, p).Located? ==> (Agrees(Scan(layers, p).status, Overlay(image), p) <==> !Misleading(image, p))
  {
    hide Overlay, LayerVerdict, IsMarker, AncestorHidden, Scan, Agrees;
    ScanSettles(layers, p);
    UnreadUnseen(layers, image, p);
    ScanSettles(Readables(image), p);
    ReadableScan(image, p);
  }

  // The scan reports a file of a removed directory as present: layer 0 adds a/x,
  // layer 1 whites out a.
  lemma RemovedDirectoryStillFound()
    ensures var layers := [[Entry(['a', '/', 'x'], false)], [Entry(WHITEOUT + ['a'], false)]];
            var p := ['a', '/', 'x'];
            Scan(Readables(layers), p) == Located(Found(0)) && p !in Overlay(layers)
  {
    var file, marker := Entry(['a', '/', 'x'], false), Entry(WHITEOUT + ['a'], false);
    var layers: seq<Entries>, p := [[file], [marker]], ['a', '/', 'x'];
    RemovedDirectory(marker, p);
    assert layers[..1] == [[file]] && Readables(layers)[..1] == Readables([[file]]);
    assert file in layers[0] && LayerVerdict(layers[0], p) == Holds;
    assert marker in layers[1] && forall e | e in layers[1] :: e.path != p;
    hide Overlay, Hides, LayerVerdict;
    TopLayer(layers, p);
  }

  // A whiteout of a hides a/x, which the scan does not see.
  lemma RemovedDirectory(marker: Entry, p: Path)
    requires marker == Entry(WHITEOUT + ['a'], false) && p == ['a', '/', 'x']
    ensures Hides(marker, p) && LayerVerdict([marker], p) == Silent
  {
    NoSlash(marker.path);
    assert IsWhiteout(marker) && WhitesOut(marker) == ['a'];
    assert Below(p, ['a']) && marker.path != p;
  }

  // And it reports a marker as a file of the image.
  lemma MarkerIsFound()
    ensures var p := WHITEOUT + ['a'];
            var layers := [[Entry(p, false)]];
            && IsMarker(p)
            && Scan(Readables(layers), p) == Located(Found(0)) && p !in Overlay(layers)
  {
    var marker := Entry(WHITEOUT + ['a'], false);
    NoSlash(marker.path);
    MarkersAreNoFiles([[marker]], marker.path);
    assert marker in [marker];
  }

  lemma {:induction false} NoSlash(p: Path)
    requires '/' !in p
    ensures LastSlash(p) == None
  {
    if p != [] {
      assert p[|p| - 1] in p;
      NoSlash(p[..|p| - 1]);
    }
  }
}
