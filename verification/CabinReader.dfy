/** The Cabin's read-only capture of a mission directory that another process may be writing:
    every source is read, re-read and re-checked, within a memory limit, and no lock is taken. */
module CabinReader {
  import opened Options

  const MAX_FILE_BYTES := 64 * 1024 * 1024
  const MAX_PUBLICATION_BYTES := 128 * 1024 * 1024
  const MAX_VARIANT_BYTES := 16 * 1024 * 1024
  const MAX_BRIEF_BYTES := 256 * 1024
  const RETAIN_PUBLICATIONS := 3

  datatype Path = Pointer | RequestFile | Context | Catalog | Fleet | Brief | Manifest | Source(name: string)

  datatype Bytes = Bytes(content: nat, size: nat)

  type Files = map<Path, Bytes>

  datatype Part = Part(path: Path, size: nat)

  /** What is parsed out of captured bytes, and the validators that live in other files. */
  datatype Formats = Formats(
    sources: Bytes -> set<Path>, context: Bytes -> seq<Path>, catalog: Bytes -> seq<Part>, fleet: Bytes -> seq<Part>,
    valid: Files -> bool, projection: Files -> Files, manifest: Files -> Bytes)

  function Optionals(): set<Path> {
    {Context, Catalog, Fleet, Brief}
  }

  // ---------------------------------------------------------------- what the writer does

  /** The mission directory at every instant. */
  type Timeline = nat -> Files

  function Look(files: Files, p: Path): Option<Bytes> {
    if p in files then Some(files[p]) else None
  }

  ghost predicate Held(at: Timeline, p: Path, a: nat, b: nat, c: nat) {
    a <= b <= c && Look(at(a), p) == Look(at(c), p) ==> Look(at(b), p) == Look(at(a), p)
  }

  /** No path ever returns to a value, or an absence, it has left. */
  ghost predicate NoReturn(at: Timeline) {
    forall p: Path, a: nat, b: nat, c: nat :: Held(at, p, a, b, c)
  }

  /** The canonical writer: every file but the current pointer is written once and kept; the
      pointer only moves to later revisions, and one revision is one content. */
  ghost predicate CanonicalWriter(at: Timeline, revision: Bytes -> nat) {
    forall p: Path, a: nat, b: nat :: Kept(at, revision, p, a, b)
  }

  ghost predicate Kept(at: Timeline, revision: Bytes -> nat, p: Path, a: nat, b: nat) {
    a <= b && p in at(a) ==>
      && p in at(b)
      && (!p.Pointer? ==> at(b)[p] == at(a)[p])
      && revision(at(a)[p]) <= revision(at(b)[p])
      && (revision(at(a)[p]) == revision(at(b)[p]) ==> at(a)[p] == at(b)[p])
  }

  lemma CanonicalNeverReturns(at: Timeline, revision: Bytes -> nat)
    requires CanonicalWriter(at, revision)
    ensures NoReturn(at)
  {
    forall p: Path, a: nat, b: nat, c: nat
      ensures Held(at, p, a, b, c)
    {
      assert Kept(at, revision, p, a, b) && Kept(at, revision, p, b, c);
    }
  }

  // ---------------------------------------------------------------- double collection

  /** Captured files and absences are what the directory held at instant t. */
  ghost predicate Coherent(files: Files, now: Files) {
    && (forall p :: p in files ==> p in now && now[p] == files[p])
    && (forall p :: p in Optionals() ==> (p in files <==> p in now))
  }

  /** Every captured value was seen by t and seen again from t on; every absent optional path too. */
  ghost predicate Twice(at: Timeline, files: Files, start: nat, t: nat, end: nat) {
    && start <= t <= end
    && (forall p :: p in files || p in Optionals() ==> SeenBy(at, p, Look(files, p), start, t) && SeenBy(at, p, Look(files, p), t, end))
  }

  ghost predicate SeenBy(at: Timeline, p: Path, value: Option<Bytes>, from: nat, to: nat) {
    exists x: nat :: from <= x <= to && Look(at(x), p) == value
  }

  /** What is collected twice existed as a whole at the instant between the two collections. */
  lemma DoubleCollect(at: Timeline, files: Files, start: nat, t: nat, end: nat)
    requires NoReturn(at) && Twice(at, files, start, t, end)
    ensures Coherent(files, at(t))
  {
    hide SeenBy, NoReturn;
    forall p | p in files || p in Optionals()
      ensures Look(at(t), p) == Look(files, p)
    {
      SeenAround(at, p, Look(files, p), start, t, end);
    }
  }

  lemma SeenWiden(at: Timeline, p: Path, value: Option<Bytes>, a: nat, b: nat, c: nat, d: nat)
    requires SeenBy(at, p, value, a, b) && c <= a && b <= d
    ensures SeenBy(at, p, value, c, d)
  {
    var x: nat :| a <= x <= b && Look(at(x), p) == value;
  }

  /** A value seen before and after an instant is the value at that instant. */
  lemma SeenAround(at: Timeline, p: Path, value: Option<Bytes>, a: nat, t: nat, d: nat)
    requires NoReturn(at) && SeenBy(at, p, value, a, t) && SeenBy(at, p, value, t, d)
    ensures Look(at(t), p) == value
  {
    var x: nat :| a <= x <= t && Look(at(x), p) == value;
    var y: nat :| t <= y <= d && Look(at(y), p) == value;
    assert Held(at, p, x, t, y);
  }

  const OLD := Bytes(0, 1)
  const NEW := Bytes(1, 1)

  /** Both files change together, and change back. */
  const WAVERING: Timeline := (t: nat) =>
    if t == 0 || t == 2 then map[Source("a") := OLD, Source("b") := OLD] else map[Source("a") := NEW, Source("b") := NEW]

  /** Without that, a capture can pass both collections and show a directory that never was. */
  lemma ReturningWriter()
    ensures var mixed := map[Source("a") := OLD, Source("b") := NEW];
      Twice(WAVERING, mixed, 0, 1, 3) && forall t: nat :: !Coherent(mixed, WAVERING(t))
  {
    var mixed := map[Source("a") := OLD, Source("b") := NEW];
    hide SeenBy;
    SeenAt(WAVERING, Source("a"), 0, 0, 1);
    SeenAt(WAVERING, Source("a"), 2, 1, 3);
    SeenAt(WAVERING, Source("b"), 1, 0, 1);
    SeenAt(WAVERING, Source("b"), 3, 1, 3);
    forall p | p in Optionals()
      ensures SeenBy(WAVERING, p, None, 0, 1) && SeenBy(WAVERING, p, None, 1, 3)
    {
      SeenAt(WAVERING, p, 1, 0, 1);
      SeenAt(WAVERING, p, 1, 1, 3);
    }
    forall t: nat
      ensures !Coherent(mixed, WAVERING(t))
    {
      assert Source("a") in mixed && Source("b") in mixed;
    }
  }

  lemma SeenAt(at: Timeline, p: Path, x: nat, from: nat, to: nat)
    requires from <= x <= to
    ensures SeenBy(at, p, Look(at(x), p), from, to)
  {
  }

  // ---------------------------------------------------------------- memory

  ghost function Sum(files: Files, keys: set<Path>): nat
    requires keys <= files.Keys
  {
    if keys == {} then 0 else var p :| p in keys; files[p].size + Sum(files, keys - {p})
  }

  ghost function Total(files: Files): nat {
    Sum(files, files.Keys)
  }

  lemma {:induction false} SumAdd(files: Files, keys: set<Path>, p: Path)
    requires keys <= files.Keys && p in files && p !in keys
    ensures Sum(files, keys + {p}) == Sum(files, keys) + files[p].size
  {
    var all := keys + {p};
    var q :| q in all && Sum(files, all) == files[q].size + Sum(files, all - {q});
    if q == p {
      assert all - {q} == keys;
    } else {
      assert all - {q} == (keys - {q}) + {p};
      SumAdd(files, keys - {q}, p);
      SumAdd(files, keys - {q}, q);
      assert (keys - {q}) + {q} == keys;
    }
  }

  lemma SumWithout(files: Files, keys: set<Path>, p: Path)
    requires keys <= files.Keys && p in keys
    ensures Sum(files, keys) == files[p].size + Sum(files, keys - {p})
  {
    SumAdd(files, keys - {p}, p);
    assert (keys - {p}) + {p} == keys;
  }

  lemma {:induction false} SumSame(files: Files, other: Files, keys: set<Path>)
    requires keys <= files.Keys && keys <= other.Keys && forall p :: p in keys ==> files[p] == other[p]
    ensures Sum(files, keys) == Sum(other, keys)
    decreases |keys|
  {
    if keys != {} {
      var q :| q in keys && Sum(files, keys) == files[q].size + Sum(files, keys - {q});
      SumSame(files, other, keys - {q});
      SumWithout(other, keys, q);
    }
  }

  lemma TotalUpdate(files: Files, p: Path, b: Bytes)
    ensures Total(files[p := b]) == Total(files) + b.size - if p in files then files[p].size else 0
  {
    var after := files[p := b];
    SumWithout(after, after.Keys, p);
    assert after.Keys - {p} == files.Keys - {p};
    SumSame(files, after, files.Keys - {p});
    if p in files { SumWithout(files, files.Keys, p); } else { assert files.Keys - {p} == files.Keys; }
  }

  // ---------------------------------------------------------------- a directory nobody writes

  ghost predicate Still(at: Timeline) {
    forall t: nat :: at(t) == at(0)
  }

  ghost predicate Small(files: Files) {
    Total(files) <= MAX_PUBLICATION_BYTES && forall p :: p in files ==> files[p].size <= MAX_FILE_BYTES
  }

  ghost predicate Within(files: Files, dir: Files) {
    forall p :: p in files ==> p in dir && dir[p] == files[p]
  }

  function Restrict(dir: Files, keys: set<Path>): Files {
    map p | p in dir && p in keys :: dir[p]
  }

  /** The directory holds all of these files, and they fit the limits together. */
  ghost predicate Fits(dir: Files, keys: set<Path>) {
    keys <= dir.Keys && Small(Restrict(dir, keys))
  }

  /** Files captured so far from a directory at rest. */
  ghost predicate Resting(at: Timeline, files: Files) {
    Still(at) && Within(files, at(0)) && Small(files)
  }

  function PathsOf(parts: seq<Part>): set<Path> {
    set i | 0 <= i < |parts| :: parts[i].path
  }

  /** A part is within its declared size, and that within what is left when its turn comes. */
  ghost predicate PartFits(dir: Files, have: set<Path>, parts: seq<Part>, i: nat)
    requires i < |parts|
  {
    var p := parts[i];
    && p.path in dir && dir[p.path].size <= p.size <= MAX_VARIANT_BYTES
    && p.size + Total(Restrict(dir, have + PathsOf(parts[..i]))) <= MAX_PUBLICATION_BYTES
  }

  ghost predicate PartsFit(dir: Files, have: set<Path>, parts: seq<Part>) {
    && Fits(dir, have + PathsOf(parts))
    && forall i :: 0 <= i < |parts| ==> PartFits(dir, have, parts, i)
  }

  const ORDER := [Context, Catalog, Fleet, Brief]

  function LimitOf(p: Path): int {
    if p.Brief? then MAX_BRIEF_BYTES else MAX_PUBLICATION_BYTES
  }

  /** What is captured beside `have` for one optional document of a directory at rest. */
  function WithOptional(formats: Formats, dir: Files, have: set<Path>, p: Path): set<Path> {
    if p !in dir then have
    else
      match p
      case Context => have + {p} + (set q | q in formats.context(dir[p]))
      case Catalog => have + {p} + PathsOf(formats.catalog(dir[p]))
      case Fleet => have + {p} + PathsOf(formats.fleet(dir[p]))
      case _ => have + {p}
  }

  ghost predicate OptionalFits(formats: Formats, dir: Files, have: set<Path>, p: Path) {
    p in dir ==>
      && dir[p].size <= LimitOf(p) && Fits(dir, WithOptional(formats, dir, have, p))
      && (p.Catalog? ==> PartsFit(dir, have + {p}, formats.catalog(dir[p])))
      && (p.Fleet? ==> PartsFit(dir, have + {p}, formats.fleet(dir[p])))
  }

  /** What is captured once the first n optional documents have had their turn. */
  function WithOptionals(formats: Formats, dir: Files, have: set<Path>, n: nat): set<Path>
    requires n <= |ORDER|
  {
    if n == 0 then have else WithOptional(formats, dir, WithOptionals(formats, dir, have, n - 1), ORDER[n - 1])
  }

  ghost predicate OptionalsFit(formats: Formats, dir: Files, have: set<Path>) {
    forall i :: 0 <= i < |ORDER| ==> OptionalFits(formats, dir, WithOptionals(formats, dir, have, i), ORDER[i])
  }

  /** Whether the mission store loads a directory at rest. */
  ghost predicate Loads(formats: Formats, dir: Files) {
    && Pointer in dir && Fits(dir, formats.sources(dir[Pointer]) + {Pointer})
    && formats.valid(Restrict(dir, formats.sources(dir[Pointer]) + {Pointer}))
  }

  function RequiredOf(formats: Formats, dir: Files): set<Path>
    requires Pointer in dir
  {
    formats.sources(dir[Pointer]) + {Pointer, RequestFile}
  }

  /** The sources a publication of a directory at rest is made of. */
  function SourcesOf(formats: Formats, dir: Files): Files
    requires Pointer in dir
  {
    Restrict(dir, WithOptionals(formats, dir, RequiredOf(formats, dir), |ORDER|))
  }

  /** Whether all sources of a directory at rest can be captured and are valid together. */
  ghost predicate Collectable(formats: Formats, dir: Files) {
    && Loads(formats, dir) && Fits(dir, RequiredOf(formats, dir))
    && OptionalsFit(formats, dir, RequiredOf(formats, dir)) && formats.valid(SourcesOf(formats, dir))
  }

  ghost predicate Publishable(formats: Formats, dir: Files) {
    Collectable(formats, dir) && Total(Published(formats, SourcesOf(formats, dir))) <= MAX_PUBLICATION_BYTES
  }

  /** What a capture publishes from its sources; the manifest describes the other files. */
  function Published(formats: Formats, files: Files): Files {
    var projected := files + formats.projection(files);
    projected[Manifest := formats.manifest(projected - {Manifest})]
  }

  /** A publication of these sources: the projected files, every other captured source as it was
      captured, a manifest of exactly the other files, which is its identity, and nothing else. */
  ghost predicate Publishes(formats: Formats, files: Files, p: Publication) {
    var projection := formats.projection(files);
    && p.files.Keys == files.Keys + projection.Keys + {Manifest}
    && (forall q :: q in projection && q != Manifest ==> p.files[q] == projection[q])
    && (forall q :: q in files && q !in projection && q != Manifest ==> p.files[q] == files[q])
    && p.id == p.files[Manifest] == formats.manifest(p.files - {Manifest})
  }

  lemma PublishedIs(formats: Formats, files: Files)
    ensures var published := Published(formats, files);
      Manifest in published && Publishes(formats, files, Publication(published[Manifest], published))
  {
    var published := Published(formats, files);
    assert published - {Manifest} == (files + formats.projection(files)) - {Manifest};
  }

  /** The sources of a directory at rest, name by name: those its pointer declares, the pointer and the
      request, and each optional document it holds with the parts that document refers to. */
  lemma SourcesAre(formats: Formats, dir: Files, q: Path)
    requires Pointer in dir
    ensures q in SourcesOf(formats, dir) <==>
              && q in dir
              && (|| q in formats.sources(dir[Pointer]) || q in {Pointer, RequestFile}
                  || (Context in dir && (q == Context || q in formats.context(dir[Context])))
                  || (Catalog in dir && (q == Catalog || Lists(formats.catalog(dir[Catalog]), q)))
                  || (Fleet in dir && (q == Fleet || Lists(formats.fleet(dir[Fleet]), q)))
                  || q == Brief)
  {
    var have := RequiredOf(formats, dir);
    assert ORDER[0] == Context && ORDER[1] == Catalog && ORDER[2] == Fleet && ORDER[3] == Brief;
    assert WithOptionals(formats, dir, have, 1) == WithOptional(formats, dir, have, Context);
    assert WithOptionals(formats, dir, have, 2) == WithOptional(formats, dir, WithOptionals(formats, dir, have, 1), Catalog);
    assert WithOptionals(formats, dir, have, 3) == WithOptional(formats, dir, WithOptionals(formats, dir, have, 2), Fleet);
    assert WithOptionals(formats, dir, have, 4) == WithOptional(formats, dir, WithOptionals(formats, dir, have, 3), Brief);
  }

  predicate Lists(parts: seq<Part>, q: Path) {
    exists i :: 0 <= i < |parts| && parts[i].path == q
  }

  lemma {:induction false} SumGrows(files: Files, keys: set<Path>, more: set<Path>)
    requires keys <= more <= files.Keys
    ensures Sum(files, keys) <= Sum(files, more)
    decreases |more|
  {
    if more - keys == {} {
      assert more == keys;
    } else {
      var p :| p in more - keys;
      SumWithout(files, more, p);
      SumGrows(files, keys, more - {p});
    }
  }

  lemma WithinIsSmaller(files: Files, dir: Files)
    requires Within(files, dir)
    ensures Total(files) <= Total(dir)
  {
    SumSame(files, dir, files.Keys);
    SumGrows(dir, files.Keys, dir.Keys);
  }

  /** Files read from a directory, with exactly these names, are its restriction. */
  lemma WithinIsRestriction(files: Files, dir: Files)
    requires Within(files, dir)
    ensures files == Restrict(dir, files.Keys)
  {
  }

  lemma RestingFits(at: Timeline, files: Files)
    requires Resting(at, files)
    ensures Fits(at(0), files.Keys) && files == Restrict(at(0), files.Keys)
  {
    WithinIsRestriction(files, at(0));
  }

  lemma FewerFit(dir: Files, keys: set<Path>, fewer: set<Path>)
    requires Fits(dir, keys) && fewer <= keys
    ensures Fits(dir, fewer)
  {
    WithinIsSmaller(Restrict(dir, fewer), Restrict(dir, keys));
  }

  lemma OneFits(dir: Files, keys: set<Path>, p: Path)
    requires Fits(dir, keys) && p in keys
    ensures dir[p].size <= MAX_FILE_BYTES && dir[p].size <= MAX_PUBLICATION_BYTES
  {
    assert p in Restrict(dir, keys);
  }

  lemma NothingRests(at: Timeline)
    ensures Still(at) ==> Resting(at, map[])
  {
    assert Total(map[]) == 0;
  }

  lemma NextPath(parts: seq<Part>, i: nat)
    requires i < |parts|
    ensures PathsOf(parts[..i + 1]) == PathsOf(parts[..i]) + {parts[i].path} <= PathsOf(parts)
  {
  }

  /** `grown` is `files` with captures of `paths` beside it. */
  ghost predicate Beside(files: Files, paths: set<Path>, grown: Files) {
    grown.Keys == files.Keys + paths && forall q :: q in files && q !in paths ==> grown[q] == files[q]
  }

  lemma BesideNothing(files: Files, paths: set<Path>)
    ensures Beside(files, paths - paths, files)
  {
  }

  lemma BesideMore(files: Files, paths: set<Path>, todo: set<Path>, grown: Files, p: Path, next: Files)
    requires p in todo && todo <= paths && paths !! files.Keys && Beside(files, paths - todo, grown)
    requires next.Keys == grown.Keys + {p} && forall q :: q in grown && q != p ==> next[q] == grown[q]
    ensures Beside(files, paths - (todo - {p}), next)
  {
  }

  lemma BesideAll(files: Files, paths: set<Path>, grown: Files)
    requires Beside(files, paths - {}, grown)
    ensures Beside(files, paths, grown)
  {
    assert paths - {} == paths;
  }

  lemma BesideKeys(files: Files, paths: set<Path>, grown: Files)
    requires Beside(files, paths, grown)
    ensures grown.Keys == files.Keys + paths
  {
  }

  // ---------------------------------------------------------------- the capture

  datatype Publication = Publication(id: Bytes, files: Files)

  function Min(a: int, b: int): int {
    if a <= b then a else b
  }

  /** What one capture has read so far: every value at some instant from `start` to now. */
  ghost predicate Captured(at: Timeline, files: Files, start: nat, now: nat) {
    && start <= now && Total(files) <= MAX_PUBLICATION_BYTES
    && forall p :: p in files ==> SeenBy(at, p, Some(files[p]), start, now)
  }

  lemma CapturedLater(at: Timeline, files: Files, start: nat, now: nat, later: nat)
    requires Captured(at, files, start, now) && now <= later
    ensures Captured(at, files, start, later)
  {
    forall p | p in files
      ensures SeenBy(at, p, Some(files[p]), start, later)
    {
      var x: nat :| start <= x <= now && Look(at(x), p) == Some(files[p]);
    }
  }

  /** The i-th part is the last one of its path. */
  predicate LastOf(parts: seq<Part>, i: nat)
    requires i < |parts|
  {
    forall j :: i < j < |parts| ==> parts[j].path != parts[i].path
  }

  /** Captured parts are within their declared sizes, and those within the bound of one variant. */
  predicate DeclaredSizes(parts: seq<Part>, files: Files) {
    forall i :: 0 <= i < |parts| && LastOf(parts, i) ==>
      parts[i].path in files && files[parts[i].path].size <= parts[i].size <= MAX_VARIANT_BYTES
  }

  class Capture {
    const at: Timeline
    const formats: Formats
    var now: nat

    constructor (at: Timeline, formats: Formats, now: nat)
      ensures this.at == at && this.formats == formats && this.now == now
    {
      this.at, this.formats, this.now := at, formats, now;
    }

    /** `_read_file`, after an arbitrary delay. */
    method Read(p: Path, limit: int) returns (r: Option<Bytes>)
      modifies this
      ensures now >= old(now)
      ensures r.Some? ==> Look(at(now), p) == r && r.value.size <= limit && r.value.size <= MAX_FILE_BYTES
      ensures r.None? ==> p in at(now) ==> at(now)[p].size > limit || at(now)[p].size > MAX_FILE_BYTES
    {
      var later: nat :| now <= later;
      now := later;
      var files := at(now);
      if p !in files || files[p].size > limit || files[p].size > MAX_FILE_BYTES {
        return None;
      }
      return Some(files[p]);
    }

    method Exists(p: Path) returns (found: bool)
      modifies this
      ensures now >= old(now)
      ensures found <==> p in at(now)
    {
      var later: nat :| now <= later;
      now := later;
      return p in at(now);
    }

    /** The byte count the memory limit is checked against. */
    method Measure(files: Files) returns (n: nat)
      ensures n == Total(files)
    {
      n := 0;
      var rest := files.Keys;
      while rest != {}
        invariant rest <= files.Keys && n + Sum(files, rest) == Total(files)
        decreases |rest|
      {
        var p :| p in rest;
        SumWithout(files, rest, p);
        n := n + files[p].size;
        rest := rest - {p};
      }
    }

    /** `_capture_file`. */
    method CaptureFile(p: Path, files: Files, cap: int, ghost start: nat) returns (ok: bool, grown: Files)
      requires Captured(at, files, start, now)
      modifies this
      ensures now >= old(now) && Captured(at, grown, start, now)
      ensures ok ==> grown.Keys == files.Keys + {p} && grown[p].size <= cap
      ensures ok ==> forall q :: q in files && q != p ==> grown[q] == files[q]
      ensures !ok ==> grown == files
      ensures Resting(at, files) ==>
                Resting(at, grown) && (ok <==> Fits(at(0), files.Keys + {p}) && at(0)[p].size <= cap)
    {
      hide Total, Captured, Small, SeenBy, Resting, Fits;
      CapturedFits(files, start);
      var used := Measure(files);
      var remaining := MAX_PUBLICATION_BYTES - used + if p in files then files[p].size else 0;
      ghost var before := now;
      var payload := Read(p, Min(remaining, cap));
      CapturedLater(at, files, start, before, now);
      if Resting(at, files) { RestingFile(files, p); }
      if payload.None? {
        return false, files;
      }
      TotalUpdate(files, p, payload.value);
      CapturedMore(files, p, payload.value, start);
      return true, files[p := payload.value];
    }

    lemma CapturedFits(files: Files, start: nat)
      requires Captured(at, files, start, now)
      ensures Total(files) <= MAX_PUBLICATION_BYTES
    {
    }

    lemma CapturedMore(files: Files, p: Path, b: Bytes, start: nat)
      requires Captured(at, files, start, now) && Look(at(now), p) == Some(b)
      requires Total(files[p := b]) <= MAX_PUBLICATION_BYTES
      ensures Captured(at, files[p := b], start, now)
    {
      hide Total;
      SeenAt(at, p, now, start, now);
    }

    /** From a directory at rest, one more file fits exactly when it is within its own limit and
        what the others leave of the whole. */
    lemma RestingFile(files: Files, p: Path)
      requires Resting(at, files)
      ensures at(now) == at(0)
      ensures Fits(at(0), files.Keys + {p}) <==>
                && p in at(0) && at(0)[p].size <= MAX_FILE_BYTES
                && at(0)[p].size <= MAX_PUBLICATION_BYTES - Total(files) + if p in files then files[p].size else 0
      ensures Fits(at(0), files.Keys + {p}) ==> Resting(at, files[p := at(0)[p]])
    {
      hide Total;
      if p in at(0) {
        TotalUpdate(files, p, at(0)[p]);
        WithinIsRestriction(files[p := at(0)[p]], at(0));
        assert files[p := at(0)[p]].Keys == files.Keys + {p};
      }
    }

    /** Captures a list of declared parts, each within its declared size; the last capture of a path counts. */
    method CaptureParts(parts: seq<Part>, files: Files, ghost start: nat) returns (ok: bool, grown: Files)
      requires Captured(at, files, start, now)
      modifies this
      ensures now >= old(now) && Captured(at, grown, start, now)
      ensures ok ==> grown.Keys == files.Keys + PathsOf(parts) && DeclaredSizes(parts, grown)
      ensures Resting(at, files) ==>
                Resting(at, grown) && (ok <==> PartsFit(at(0), files.Keys, parts))
    {
      hide Captured, Total, Resting, Fits, PartFits, PathsOf;
      ghost var calm := Resting(at, files);
      grown := files;
      assert PathsOf(parts[..0]) == {} by { NoPaths(); }
      for i := 0 to |parts|
        invariant now >= old(now) && Captured(at, grown, start, now)
        invariant grown.Keys == files.Keys + PathsOf(parts[..i]) && DeclaredSizes(parts[..i], grown)
        invariant calm ==> Resting(at, grown) && forall j :: 0 <= j < i ==> PartFits(at(0), files.Keys, parts, j)
      {
        var used := Measure(grown);
        if calm { PartTurn(parts, files, grown, i); }
        if parts[i].size > Min(MAX_PUBLICATION_BYTES - used, MAX_VARIANT_BYTES) {
          return false, grown;
        }
        NextPath(parts, i);
        ghost var had := grown;
        ok, grown := CaptureFile(parts[i].path, grown, parts[i].size, start);
        if !ok {
          return;
        }
        DeclaredNext(parts, i, had, grown);
      }
      assert parts[..|parts|] == parts;
      if calm { RestingFits(at, grown); }
      return true, grown;
    }

    lemma NoPaths()
      ensures PathsOf([]) == {}
    {
    }

    /** Whether the turn of the i-th part goes well, read off the directory at rest. */
    lemma PartTurn(parts: seq<Part>, files: Files, grown: Files, i: nat)
      requires i < |parts| && Resting(at, grown) && grown.Keys == files.Keys + PathsOf(parts[..i])
      ensures PartFits(at(0), files.Keys, parts, i) <==>
                && parts[i].path in at(0) && at(0)[parts[i].path].size <= parts[i].size
                && parts[i].size <= Min(MAX_PUBLICATION_BYTES - Total(grown), MAX_VARIANT_BYTES)
      ensures Fits(at(0), files.Keys + PathsOf(parts)) ==> Fits(at(0), grown.Keys + {parts[i].path})
      ensures Fits(at(0), grown.Keys + {parts[i].path}) ==> parts[i].path in at(0)
    {
      hide Total, PathsOf;
      RestingFits(at, grown);
      NextPath(parts, i);
      assert grown.Keys + {parts[i].path} <= files.Keys + PathsOf(parts);
      if Fits(at(0), files.Keys + PathsOf(parts)) {
        FewerFit(at(0), files.Keys + PathsOf(parts), grown.Keys + {parts[i].path});
      }
    }

    static lemma DeclaredNext(parts: seq<Part>, i: nat, had: Files, grown: Files)
      requires i < |parts| && DeclaredSizes(parts[..i], had)
      requires grown.Keys == had.Keys + {parts[i].path} && grown[parts[i].path].size <= parts[i].size <= MAX_VARIANT_BYTES
      requires forall q :: q in had && q != parts[i].path ==> grown[q] == had[q]
      ensures DeclaredSizes(parts[..i + 1], grown)
    {
      forall j | 0 <= j < i + 1 && LastOf(parts[..i + 1], j)
        ensures parts[j].path in grown && grown[parts[j].path].size <= parts[j].size <= MAX_VARIANT_BYTES
      {
        if j < i {
          assert parts[..i + 1][i].path != parts[..i + 1][j].path;
          assert LastOf(parts[..i], j) by {
            forall k | j < k < i ensures parts[..i][k].path != parts[..i][j].path { assert parts[..i + 1][k] == parts[..i][k]; }
          }
          assert parts[..i][j] == parts[j];
        }
      }
    }

    /** `MissionStore.load_mission`, as far as the capture relies on it: it reads the pointer and
        every source the pointer declares, within the same limit, and returns the pointer's bytes. */
    method LoadMission() returns (pointer: Option<Bytes>, ghost read: Files)
      modifies this
      ensures now >= old(now)
      ensures pointer.Some? ==>
                && SeenBy(at, Pointer, pointer, old(now), now) && Captured(at, read, old(now), now)
                && read.Keys == formats.sources(pointer.value) + {Pointer} && formats.valid(read)
      ensures Still(at) ==> (pointer.Some? <==> Loads(formats, at(0))) && (pointer.Some? ==> pointer == Look(at(0), Pointer))
    {
      hide Still, Captured, SeenBy, Total, Restrict, Resting, Fits;
      ghost var start := now;
      ghost var calm := Still(at);
      read := map[];
      NothingRests(at);
      NothingCaptured(start);
      if Pointer in at(0) { PointerAlone(at(0), formats.sources(at(0)[Pointer]) + {Pointer}); }
      assert read.Keys + {Pointer} == {Pointer};
      var ok, sizes := CaptureFile(Pointer, map[], MAX_PUBLICATION_BYTES, start);
      if !ok {
        assert calm ==> !Loads(formats, at(0));
        return None, read;
      }
      var found := sizes[Pointer];
      CapturedShows(sizes, Pointer, start, calm);
      ok, sizes := CaptureAll(formats.sources(found) - {Pointer}, sizes, start);
      assert {Pointer} + (formats.sources(found) - {Pointer}) == formats.sources(found) + {Pointer};
      if !ok {
        return None, read;
      }
      CapturedShows(sizes, Pointer, start, calm);
      assert sizes.Keys == formats.sources(found) + {Pointer};
      if calm { RestingFits(at, sizes); }
      if !formats.valid(sizes) {
        return None, read;
      }
      return Some(found), sizes;
    }

    static lemma PointerAlone(dir: Files, keys: set<Path>)
      requires Pointer in keys && Pointer in dir
      ensures Fits(dir, keys) ==> Fits(dir, {Pointer}) && dir[Pointer].size <= MAX_PUBLICATION_BYTES
    {
      if Fits(dir, keys) {
        FewerFit(dir, keys, {Pointer});
        OneFits(dir, keys, Pointer);
      }
    }

    lemma NothingCaptured(start: nat)
      requires start <= now
      ensures Captured(at, map[], start, now)
    {
      assert Total(map[]) == 0;
    }

    lemma CapturedShows(files: Files, p: Path, start: nat, calm: bool)
      requires Captured(at, files, start, now) && p in files && (calm ==> Resting(at, files))
      ensures SeenBy(at, p, Some(files[p]), start, now)
      ensures calm ==> p in at(0) && at(0)[p] == files[p]
    {
    }

    /** Captures a set of paths, in any order, beside what is already captured. */
    method CaptureAll(paths: set<Path>, files: Files, ghost start: nat) returns (ok: bool, grown: Files)
      requires Captured(at, files, start, now) && paths !! files.Keys
      modifies this
      ensures now >= old(now)
      ensures ok ==> Captured(at, grown, start, now) && Beside(files, paths, grown)
      ensures Resting(at, files) ==> Resting(at, grown) && (ok <==> Fits(at(0), files.Keys + paths))
    {
      hide Captured, Total, Beside, Resting, Fits;
      ghost var calm := Resting(at, files);
      grown := files;
      var todo := paths;
      BesideNothing(files, paths);
      while todo != {}
        invariant now >= old(now) && Captured(at, grown, start, now)
        invariant todo <= paths && Beside(files, paths - todo, grown)
        invariant calm ==> Resting(at, grown)
        decreases |todo|
      {
        var p :| p in todo;
        ghost var had := grown;
        BesideKeys(files, paths - todo, grown);
        assert grown.Keys + {p} <= files.Keys + paths;
        ok, grown := CaptureFile(p, grown, MAX_PUBLICATION_BYTES, start);
        if !ok {
          if Fits(at(0), files.Keys + paths) {
            FewerFit(at(0), files.Keys + paths, had.Keys + {p});
            OneFits(at(0), files.Keys + paths, p);
          }
          return;
        }
        BesideMore(files, paths, todo, had, p, grown);
        todo := todo - {p};
      }
      BesideAll(files, paths, grown);
      BesideKeys(files, paths, grown);
      if calm { RestingFits(at, grown); }
      return true, grown;
    }

    /** The optional documents: an absent one is skipped, a present one is captured with its parts. */
    method CaptureOptional(p: Path, files: Files, ghost start: nat) returns (ok: bool, grown: Files)
      requires Captured(at, files, start, now) && p in Optionals()
      modifies this
      ensures now >= old(now) && Captured(at, grown, start, now)
      ensures ok ==> files.Keys <= grown.Keys && (p !in grown ==> SeenBy(at, p, None, start, now))
      ensures ok && p == Brief && p in grown && p !in files ==> grown[p].size <= 262144
      ensures Resting(at, files) ==>
                && Resting(at, grown) && (ok <==> OptionalFits(formats, at(0), files.Keys, p))
                && (ok ==> grown.Keys == WithOptional(formats, at(0), files.Keys, p))
    {
      hide Resting, Fits, PartsFit, Captured, PathsOf;
      ghost var before := now;
      ghost var calm := Resting(at, files);
      var found := Exists(p);
      CapturedLater(at, files, start, before, now);
      if calm { RestingFile(files, p); }
      if !found {
        assert Look(at(now), p) == None;
        return true, files;
      }
      if calm { OptionalAlone(at(0), files.Keys, p); }
      ok, grown := CaptureFile(p, files, LimitOf(p), start);
      if !ok {
        return;
      }
      CapturedShows(grown, p, start, calm);
      match p {
        case Context => ok, grown := CaptureListed(formats.context(grown[p]), grown, start);
        case Catalog => ok, grown := CaptureParts(formats.catalog(grown[p]), grown, start);
        case Fleet => ok, grown := CaptureParts(formats.fleet(grown[p]), grown, start);
        case _ =>
      }
    }

    lemma OptionalAlone(dir: Files, have: set<Path>, p: Path)
      requires p in Optionals() && p in dir
      ensures OptionalFits(formats, dir, have, p) ==> Fits(dir, have + {p}) && dir[p].size <= LimitOf(p)
      ensures Fits(dir, have + {p}) && p.Brief? ==> Fits(dir, WithOptional(formats, dir, have, p))
      ensures p.Catalog? && PartsFit(dir, have + {p}, formats.catalog(dir[p])) ==> Fits(dir, WithOptional(formats, dir, have, p))
      ensures p.Fleet? && PartsFit(dir, have + {p}, formats.fleet(dir[p])) ==> Fits(dir, WithOptional(formats, dir, have, p))
      ensures Fits(dir, have + {p}) && LimitOf(p) == MAX_PUBLICATION_BYTES ==> dir[p].size <= LimitOf(p)
    {
      hide Fits, PathsOf, PartFits;
      if OptionalFits(formats, dir, have, p) { FewerFit(dir, WithOptional(formats, dir, have, p), have + {p}); }
      if Fits(dir, have + {p}) { OneFits(dir, have + {p}, p); }
    }

    /** The files a context refers to, one by one. */
    method CaptureListed(paths: seq<Path>, files: Files, ghost start: nat) returns (ok: bool, grown: Files)
      requires Captured(at, files, start, now)
      modifies this
      ensures now >= old(now) && Captured(at, grown, start, now)
      ensures ok ==> grown.Keys == files.Keys + set q | q in paths
      ensures Resting(at, files) ==>
                Resting(at, grown) && (ok <==> Fits(at(0), files.Keys + set q | q in paths))
    {
      hide Captured, Total, Resting, Fits;
      ghost var calm := Resting(at, files);
      grown := files;
      for i := 0 to |paths|
        invariant now >= old(now) && Captured(at, grown, start, now)
        invariant grown.Keys == files.Keys + set q | q in paths[..i]
        invariant calm ==> Resting(at, grown)
      {
        ghost var had := grown;
        ghost var all := files.Keys + set q | q in paths;
        assert grown.Keys + {paths[i]} <= all;
        ok, grown := CaptureFile(paths[i], grown, MAX_PUBLICATION_BYTES, start);
        if !ok {
          if Fits(at(0), all) {
            FewerFit(at(0), all, had.Keys + {paths[i]});
            OneFits(at(0), all, paths[i]);
          }
          return;
        }
        assert paths[..i + 1] == paths[..i] + [paths[i]];
      }
      assert paths[..|paths|] == paths;
      if calm { RestingFits(at, grown); }
      return true, grown;
    }

    /** The second collection: every captured source again, byte for byte. */
    method ReadAgain(files: Files, ghost t: nat) returns (same: bool)
      requires t <= now
      modifies this
      ensures now >= old(now)
      ensures same ==> forall p :: p in files ==> SeenBy(at, p, Some(files[p]), t, now)
      ensures Resting(at, files) ==> same
    {
      hide Total;
      var todo := files.Keys;
      while todo != {}
        invariant now >= old(now) && todo <= files.Keys
        invariant forall p :: p in files && p !in todo ==> SeenBy(at, p, Some(files[p]), t, now)
        decreases |todo|
      {
        var p :| p in todo;
        ghost var before := now;
        var payload := Read(p, files[p].size);
        if Still(at) { assert at(now) == at(0); }
        if payload != Some(files[p]) {
          return false;
        }
        forall q | q in files && q !in todo
          ensures SeenBy(at, q, Some(files[q]), t, now)
        {
          var x: nat :| t <= x <= before && Look(at(x), q) == Some(files[q]);
        }
        assert Look(at(now), p) == Some(files[p]);
        todo := todo - {p};
      }
      return true;
    }

    /** Whether every optional document is still absent or still present, as it was captured. */
    method SameOptionals(files: Files, ghost t: nat) returns (same: bool)
      requires t <= now
      modifies this
      ensures now >= old(now)
      ensures same ==> forall p :: p in Optionals() && p !in files ==> SeenBy(at, p, None, t, now)
      ensures Still(at) && (forall p :: p in Optionals() ==> (p in files <==> p in at(0))) ==> same
    {
      var todo := [Context, Catalog, Fleet, Brief];
      for i := 0 to |todo|
        invariant now >= old(now)
        invariant forall j :: 0 <= j < i && todo[j] !in files ==> SeenBy(at, todo[j], None, t, now)
      {
        ghost var before := now;
        var found := Exists(todo[i]);
        if Still(at) { assert at(now) == at(0) && todo[i] in Optionals(); }
        if found != (todo[i] in files) {
          return false;
        }
        forall j | 0 <= j <= i && todo[j] !in files
          ensures SeenBy(at, todo[j], None, t, now)
        {
          if j < i {
            var x: nat :| t <= x <= before && Look(at(x), todo[j]) == None;
          } else {
            assert Look(at(now), todo[j]) == None;
          }
        }
      }
      assert todo[0] == Context && todo[1] == Catalog && todo[2] == Fleet && todo[3] == Brief;
      return true;
    }

    lemma SeenLater(absent: set<Path>, first: nat, was: nat)
      requires was <= now && forall q :: q in absent ==> SeenBy(at, q, None, first, was)
      ensures forall q :: q in absent ==> SeenBy(at, q, None, first, now)
    {
      hide SeenBy;
      forall q | q in absent
        ensures SeenBy(at, q, None, first, now)
      {
        SeenWiden(at, q, None, first, was, first, now);
      }
    }

    /** The instant between the two collections is the one the publication shows. */
    lemma Settles(files: Files, absent: set<Path>, start: nat, first: nat, t: nat, again: nat, reloaded: nat, pointer: Bytes)
      requires NoReturn(at) && start <= first <= t <= again <= reloaded <= now && Pointer in files
      requires Captured(at, files, first, t) && forall p :: p in files ==> SeenBy(at, p, Some(files[p]), t, again)
      requires forall q :: q in absent ==> SeenBy(at, q, None, first, t)
      requires forall p :: p in Optionals() ==> p in files || p in absent
      requires forall p :: p in Optionals() && p !in files ==> SeenBy(at, p, None, t, now)
      requires SeenBy(at, Pointer, Some(pointer), start, first) && SeenBy(at, Pointer, Some(pointer), again, reloaded)
      ensures Coherent(files, at(t)) && files[Pointer] == pointer
    {
      hide SeenBy, NoReturn, Coherent, Optionals, Total;
      forall p | p in files || p in Optionals()
        ensures SeenBy(at, p, Look(files, p), first, t) && SeenBy(at, p, Look(files, p), t, now)
      {
        if p in files { SeenWiden(at, p, Some(files[p]), t, again, t, now); }
      }
      DoubleCollect(at, files, first, t, now);
      SeenWiden(at, Pointer, Some(pointer), start, first, start, t);
      SeenWiden(at, Pointer, Some(pointer), again, reloaded, t, reloaded);
      SeenAround(at, Pointer, Some(pointer), start, t, reloaded);
      CoherentAt(files, at(t), Pointer);
    }

    /** What a publication does not project it shows as the directory held it. */
    lemma AsHeld(files: Files, p: Publication, t: nat)
      requires Publishes(formats, files, p) && Coherent(files, at(t))
      ensures forall q :: q in p.files && q != Manifest && q !in formats.projection(files) ==> q in at(t) && p.files[q] == at(t)[q]
    {
    }

    static lemma CoherentAt(files: Files, held: Files, p: Path)
      requires Coherent(files, held) && p in files
      ensures Look(held, p) == Some(files[p])
    {
    }

    /** The four optional documents, in order. */
    method CaptureOptionals(files: Files, ghost first: nat) returns (ok: bool, grown: Files, ghost absent: set<Path>)
      requires Captured(at, files, first, now)
      modifies this
      ensures now >= old(now) && Captured(at, grown, first, now)
      ensures ok ==> files.Keys <= grown.Keys
      ensures ok ==> forall q :: q in absent ==> SeenBy(at, q, None, first, now)
      ensures ok ==> forall p :: p in Optionals() ==> p in grown || p in absent
      ensures Resting(at, files) ==>
                && Resting(at, grown) && (ok <==> OptionalsFit(formats, at(0), files.Keys))
                && (ok ==> grown.Keys == WithOptionals(formats, at(0), files.Keys, |ORDER|))
    {
      hide SeenBy, Captured, Still, Resting, OptionalFits, WithOptional;
      ghost var calm := Resting(at, files);
      grown, absent := files, {};
      for i := 0 to |ORDER|
        invariant old(now) <= now && Captured(at, grown, first, now) && files.Keys <= grown.Keys
        invariant forall q :: q in absent ==> SeenBy(at, q, None, first, now)
        invariant forall j :: 0 <= j < i ==> ORDER[j] in grown || ORDER[j] in absent
        invariant calm ==>
                    && Resting(at, grown) && grown.Keys == WithOptionals(formats, at(0), files.Keys, i)
                    && forall j :: 0 <= j < i ==> OptionalFits(formats, at(0), WithOptionals(formats, at(0), files.Keys, j), ORDER[j])
      {
        assert ORDER[i] in Optionals();
        ghost var was := now;
        ghost var had := grown;
        ok, grown := CaptureOptional(ORDER[i], grown, first);
        if !ok {
          return;
        }
        SeenLater(absent, first, was);
        assert forall j :: 0 <= j < i && ORDER[j] in had ==> ORDER[j] in grown;
        if ORDER[i] !in grown { absent := absent + {ORDER[i]}; }
      }
      assert ORDER[0] == Context && ORDER[1] == Catalog && ORDER[2] == Fleet && ORDER[3] == Brief;
      return true, grown, absent;
    }

    /** At rest, what was seen absent is absent, and everything else optional has been captured. */
    lemma RestingOptionals(files: Files, absent: set<Path>, first: nat)
      requires Resting(at, files) && forall q :: q in absent ==> SeenBy(at, q, None, first, now)
      requires forall p :: p in Optionals() ==> p in files || p in absent
      ensures forall p :: p in Optionals() ==> (p in files <==> p in at(0))
    {
      hide Total;
      forall q | q in absent
        ensures q !in at(0)
      {
        var x: nat :| first <= x <= now && Look(at(x), q) == None;
        assert at(x) == at(0);
      }
    }

    static lemma LoadsPointer(formats: Formats, dir: Files)
      ensures Loads(formats, dir) ==>
                Pointer in dir && dir[Pointer].size <= MAX_FILE_BYTES && dir[Pointer].size <= MAX_PUBLICATION_BYTES
    {
      hide Fits;
      if Loads(formats, dir) { OneFits(dir, formats.sources(dir[Pointer]) + {Pointer}, Pointer); }
    }

    lemma StillNow()
      requires Still(at)
      ensures at(now) == at(0)
    {
    }

    /** Both collections and every re-check of `capture_publication`. */
    method Collect() returns (found: Option<Files>, ghost t: nat)
      modifies this
      ensures now >= old(now)
      ensures found.Some? ==>
                && old(now) <= t <= now && Pointer in found.value
                && (NoReturn(at) ==>
                      && Coherent(found.value, at(t))
                      && formats.sources(found.value[Pointer]) + {Pointer, RequestFile} <= found.value.Keys)
      ensures Still(at) ==>
                found == if Collectable(formats, at(0)) then Some(SourcesOf(formats, at(0))) else None
    {
      hide SeenBy, NoReturn, Coherent, Optionals, Captured, Loads, Still, Resting, Fits, OptionalsFit, WithOptionals, Restrict;
      ghost var calm := Still(at);
      LoadsPointer(formats, at(0));
      ghost var start := now;
      var before := Read(Pointer, MAX_PUBLICATION_BYTES);
      t := now;
      if calm { StillNow(); }
      if before.None? {
        return None, t;
      }
      ghost var loading := now;
      ghost var read;
      var loaded;
      loaded, read := LoadMission();
      if loaded != before {
        return None, t;
      }
      var sources := formats.sources(loaded.value) + {Pointer, RequestFile};
      ghost var first := now;
      SeenWiden(at, Pointer, loaded, loading, first, start, first);
      NothingCaptured(first);
      NothingRests(at);
      var nothing: Files := map[];
      assert nothing.Keys + sources == sources;
      var ok, files := CaptureAll(sources, nothing, first);
      if !ok {
        return None, t;
      }
      ghost var absent;
      ok, files, absent := CaptureOptionals(files, first);
      if calm && ok { RestingFits(at, files); }
      if !ok || !formats.valid(files) {
        return None, t;
      }
      if calm { RestingOptionals(files, absent, first); }
      t := now;
      var same := ReadAgain(files, t);
      if !same {
        return None, t;
      }
      ghost var again := now;
      var after;
      after, read := LoadMission();
      if after != before {
        return None, t;
      }
      ghost var reloaded := now;
      var kept := SameOptionals(files, t);
      if !kept {
        return None, t;
      }
      if NoReturn(at) {
        Settles(files, absent, start, first, t, again, reloaded, loaded.value);
      }
      return Some(files), t;
    }

    /** `capture_publication`.  Against a writer that never returns to an earlier state, the sources
        of every publication are what the directory held at one single instant of the capture;
        they are the ones the captured pointer declares; and the memory limit is kept.  A directory
        at rest is published exactly when it can be. */
    method CapturePublication() returns (p: Option<Publication>, ghost t: nat, ghost files: Files)
      modifies this
      ensures now >= old(now)
      ensures p.Some? ==>
                && Total(p.value.files) <= MAX_PUBLICATION_BYTES && Publishes(formats, files, p.value)
                && old(now) <= t <= now && Pointer in files
      ensures p.Some? && NoReturn(at) ==>
                forall q :: q in p.value.files && q != Manifest && q !in formats.projection(files) ==>
                  q in at(t) && p.value.files[q] == at(t)[q]
      ensures p.Some? && NoReturn(at) ==>
                Coherent(files, at(t)) && formats.sources(files[Pointer]) + {Pointer, RequestFile} <= files.Keys
      ensures Still(at) ==> (p.Some? <==> Publishable(formats, at(0))) && (p.Some? ==> files == SourcesOf(formats, at(0)))
    {
      hide NoReturn, Coherent, Total, Still, Collectable, SourcesOf, Publishes;
      var found;
      found, t := Collect();
      if found.None? {
        return None, t, map[];
      }
      files := found.value;
      var projected := found.value + formats.projection(found.value);
      var published := projected[Manifest := formats.manifest(projected - {Manifest})];
      var bytes := Measure(published);
      if bytes > MAX_PUBLICATION_BYTES {
        return None, t, files;
      }
      PublishedIs(formats, files);
      p := Some(Publication(published[Manifest], published));
      if NoReturn(at) { AsHeld(files, p.value, t); }
      return p, t, files;
    }
  }
}
