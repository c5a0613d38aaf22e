/** The journal on disk: what a scan accepts, and what each system call of a publication,
    and a kill between any two of them, does to it. */
module JournalFiles {
  import opened Options
  import opened FileSystem
  import opened JournalTypes
  import opened JournalChain
  import Appending = JournalAppend

  type Journal = Appending.Journal

  /** A name in one of the three subdirectories; evidence is named by its digest. */
  datatype Name = StagedName(token: nat) | EvidenceName(sha: Digest) | EntryName(sequence: nat) | ForeignName(text: string)

  const IsStaged: Name -> bool := (n: Name) => n.StagedName?

  /** File contents; `eventHash` stands for the event it is the SHA-256 of. */
  datatype File =
    | EvidenceFile(blob: Blob)
    | EntryFile(entry: Entry, eventHash: Event, canonical: bool)

  function Size(rules: Rules, f: File): nat {
    match f
    case EvidenceFile(b) => b.size
    case EntryFile(entry, _, _) => rules.entrySize(entry)
  }

  function FileAt(events: seq<Event>, n: nat): File
    requires 0 < n <= |events|
  {
    EntryFile(EntryAt(events, n), events[n - 1], true)
  }

  /** The published files are exactly this chain and this evidence. */
  ghost predicate Stores(rules: Rules, files: map<Name, Content<File>>, j: Journal) {
    && (forall n :: n in files <==>
          match n
          case EntryName(k) => 0 < k <= |j.events|
          case EvidenceName(d) => d in j.blobs
          case _ => false)
    && (forall k :: 0 < k <= |j.events| ==>
          files[EntryName(k)] == Whole(FileAt(j.events, k)) && Size(rules, FileAt(j.events, k)) <= MAX_FILE_BYTES)
    && (forall d :: d in j.blobs ==>
          files[EvidenceName(d)] == Whole(EvidenceFile(d.blob)) && d.blob.size <= MAX_FILE_BYTES)
  }

  /** One link, or the two links a kill between link and unlink leaves: one staged, one committed. */
  ghost predicate GoodLinks(d: Disk<Name, File>, n: Name) {
    Sole(d, n) || exists m :: Twin(d, n, m) && (n.StagedName? != m.StagedName?)
  }

  ghost predicate StagedFits(rules: Rules, d: Disk<Name, File>) {
    forall n :: n in d.names && n.StagedName? && d.names[n] in d.inodes && d.inodes[d.names[n]].content.Whole? ==>
      Size(rules, d.inodes[d.names[n]].content.bytes) <= MAX_FILE_BYTES
  }

  ghost predicate Tidy(rules: Rules, d: Disk<Name, File>) {
    WellFormed(d) && StagedFits(rules, d) && forall n :: n in d.names ==> GoodLinks(d, n)
  }

  /** What `_scan` accepts, and as which journal. */
  ghost predicate Scannable(rules: Rules, d: Disk<Name, File>, j: Journal) {
    Tidy(rules, d) && Stores(rules, Published(d, IsStaged), j) && ValidChain(rules, j.events, j.blobs)
  }

  /** A disk holds at most one journal. */
  lemma SameJournal(rules: Rules, files: map<Name, Content<File>>, a: Journal, b: Journal)
    requires Stores(rules, files, a) && Stores(rules, files, b)
    ensures a == b
  {
    assert |a.events| == |b.events| by {
      assert |a.events| > 0 ==> EntryName(|a.events|) in files;
      assert |b.events| > 0 ==> EntryName(|b.events|) in files;
    }
    forall k | 0 <= k < |a.events|
      ensures a.events[k] == b.events[k]
    {
      assert files[EntryName(k + 1)] == Whole(FileAt(a.events, k + 1)) == Whole(FileAt(b.events, k + 1));
    }
    forall d
      ensures d in a.blobs <==> d in b.blobs
    {
      assert d in a.blobs <==> EvidenceName(d) in files;
    }
    assert a.events == b.events && a.blobs == b.blobs;
  }

  /** Whatever a scan accepts lists no event without its evidence: each reference names a
      published file, whole, of the recorded size. */
  lemma EvidenceIsPublished(rules: Rules, d: Disk<Name, File>, j: Journal, k: nat, p: Path)
    requires Scannable(rules, d, j) && k < |j.events| && p in j.events[k].evidence
    ensures var reference, files := j.events[k].evidence[p], Published(d, IsStaged);
      && EvidenceName(reference.sha) in files && files[EvidenceName(reference.sha)] == Whole(EvidenceFile(reference.sha.blob))
      && reference.sha.blob.size == reference.size <= MAX_FILE_BYTES
  {
    hide Tidy, ValidChain;
    EvidenceIsRetained(rules, j.events, j.blobs, k);
  }

  /** Entry k of a scanned journal holds event k under its own sequence number and hash, and the hash of
      the entry before it. */
  lemma EntriesAreChained(rules: Rules, d: Disk<Name, File>, j: Journal, k: nat)
    requires Scannable(rules, d, j) && 1 <= k <= |j.events|
    ensures var files := Published(d, IsStaged);
      && EntryName(k) in files && files[EntryName(k)].Whole? && files[EntryName(k)].bytes.EntryFile?
      && var f := files[EntryName(k)].bytes;
         && f.canonical && f.entry.sequence == k && f.entry.event == f.eventHash == j.events[k - 1]
         && (k == 1 ==> f.entry.previous == None)
         && (k > 1 ==>
               && EntryName(k - 1) in files && files[EntryName(k - 1)].Whole? && files[EntryName(k - 1)].bytes.EntryFile?
               && f.entry.previous == Some(Seal(files[EntryName(k - 1)].bytes.entry)))
  {
    hide ValidChain, Tidy, Published;
    if k > 1 { assert EntryAt(j.events, k).previous == SealAt(j.events, k - 1) == Some(Seal(EntryAt(j.events, k - 1))); }
  }

  /** What a scan returns. */
  ghost function Verified(rules: Rules, d: Disk<Name, File>): (r: Option<Journal>)
    ensures r.Some? ==> Scannable(rules, d, r.value)
    ensures r.None? ==> forall j :: !Scannable(rules, d, j)
  {
    if exists j :: Scannable(rules, d, j) then
      var j :| Scannable(rules, d, j);
      Some(j)
    else None
  }

  lemma VerifiedIs(rules: Rules, d: Disk<Name, File>, j: Journal)
    requires Scannable(rules, d, j)
    ensures Verified(rules, d) == Some(j)
  {
    hide Stores, Tidy, ValidChain;
    SameJournal(rules, Published(d, IsStaged), j, Verified(rules, d).value);
  }

  // ---------------------------------------------------------------- what publications do

  /** Every disk a kill inside one publication can leave is tidy. */
  lemma InterruptedIsTidy(rules: Rules, d: Disk<Name, File>)
    requires Interrupted(d, IsStaged) && StagedFits(rules, d)
    ensures Tidy(rules, d)
  {
    if t, n :| HalfLinked(d, IsStaged, t, n) {
      assert Twin(d, n, t);
      forall m | m in d.names
        ensures GoodLinks(d, m)
      {
      }
    }
  }

  lemma TidyIsSettled(rules: Rules, d: Disk<Name, File>)
    requires Tidy(rules, d) && forall n :: n in d.names ==> !n.StagedName?
    ensures Settled(d, IsStaged)
  {
  }

  /** Discarding one staged name of a tidy disk changes nothing that is published. */
  lemma Discarded(rules: Rules, d: Disk<Name, File>, t: Name)
    requires Tidy(rules, d) && t in d.names && t.StagedName?
    ensures Apply(d, Unlink(t)).Some?
    ensures var d' := Apply(d, Unlink(t)).value;
      && d'.names == d.names - {t} && Published(d', IsStaged) == Published(d, IsStaged) && Tidy(rules, d')
  {
    var d' := Apply(d, Unlink(t)).value;
    forall n | n in d'.names
      ensures GoodLinks(d', n)
    {
      if Sole(d, n) {
        assert Sole(d', n);
      } else {
        var m :| Twin(d, n, m) && (n.StagedName? != m.StagedName?);
        if m == t {
          assert Sole(d', n);
        } else {
          assert Twin(d', n, m);
        }
      }
    }
    assert GoodLinks(d, t);
    assert Published(d', IsStaged) == Published(d, IsStaged);
  }

  /** New evidence. */
  lemma StoresEvidence(rules: Rules, files: map<Name, Content<File>>, j: Journal, d: Digest)
    requires Stores(rules, files, j) && d !in j.blobs && d.blob.size <= MAX_FILE_BYTES
    ensures EvidenceName(d) !in files
    ensures Stores(rules, files[EvidenceName(d) := Whole(EvidenceFile(d.blob))], Appending.Journal(j.events, j.blobs + {d}))
  {
    hide EntryAt;
  }

  /** The next entry. */
  lemma StoresEntry(rules: Rules, files: map<Name, Content<File>>, j: Journal, e: Event)
    requires Stores(rules, files, j) && Appending.EntryFits(rules, j.events + [e])
    ensures EntryName(|j.events| + 1) !in files
    ensures var longer := j.events + [e];
      Stores(rules, files[EntryName(|longer|) := Whole(FileAt(longer, |longer|))], Appending.Journal(longer, j.blobs))
  {
    hide EntryAt;
    var longer := j.events + [e];
    forall k | 0 < k <= |j.events|
      ensures FileAt(longer, k) == FileAt(j.events, k)
    {
      EntryOfPrefix(j.events, longer, k);
    }
  }

  // ---------------------------------------------------------------- reading a journal back

  function EntryCount(d: Disk<Name, File>): nat {
    |set n | n in d.names && n.EntryName?|
  }

  lemma {:induction false} CountEntries(names: set<Name>, n: nat)
    requires forall m :: m in names <==> m.EntryName? && 0 < m.sequence <= n
    ensures |names| == n
  {
    if n > 0 {
      CountEntries(names - {EntryName(n)}, n - 1);
    } else {
      assert names == {};
    }
  }

  lemma {:induction false} OnlyEntries(names: set<Name>, n: nat)
    requires |names| == n && forall k :: 0 < k <= n ==> EntryName(k) in names
    ensures forall m :: m in names ==> m.EntryName? && 0 < m.sequence <= n
  {
    if n > 0 { OnlyEntries(names - {EntryName(n)}, n - 1); }
  }

  /** What a scannable disk shows under each name. */
  lemma ScannableShows(rules: Rules, d: Disk<Name, File>, j: Journal)
    requires Scannable(rules, d, j)
    ensures forall n :: n in d.names ==> d.names[n] in d.inodes && !n.ForeignName?
    ensures forall n :: n in d.names && n.EvidenceName? ==>
              && n.sha in j.blobs && d.inodes[d.names[n]].content == Whole(EvidenceFile(n.sha.blob))
              && n.sha.blob.size <= MAX_FILE_BYTES
    ensures forall s :: s in j.blobs ==> EvidenceName(s) in d.names
    ensures EntryCount(d) == |j.events|
  {
    hide ValidChain, EntryAt, GoodLinks;
    var files := Published(d, IsStaged);
    assert forall n :: n in d.names && !n.StagedName? <==> n in files;
    CountEntries(set n | n in d.names && n.EntryName?, |j.events|);
  }

  lemma ScannableEntry(rules: Rules, d: Disk<Name, File>, j: Journal, events: seq<Event>, n: nat)
    requires Scannable(rules, d, j) && events <= j.events && n == |events| + 1 <= |j.events|
    ensures EntryName(n) in d.names && d.names[EntryName(n)] in d.inodes
    ensures d.inodes[d.names[EntryName(n)]].content == Whole(FileAt(j.events, n))
    ensures Size(rules, FileAt(j.events, n)) <= MAX_FILE_BYTES
    ensures EntryAt(j.events, n) == Entry(n, SealAt(events, n - 1), j.events[n - 1])
    ensures ValidEvent(rules, j.events[n - 1], events, j.blobs)
  {
    hide ValidEvent, GoodLinks;
    assert EntryName(n) in Published(d, IsStaged);
    EntryOfPrefix(events, j.events, n - 1);
    assert j.events[..n - 1] == events;
  }

  /** The facts a scan gathers name by name make the disk scannable. */
  lemma Gathered(rules: Rules, d: Disk<Name, File>, j: Journal)
    requires Tidy(rules, d) && ValidChain(rules, j.events, j.blobs)
    requires forall n :: n in d.names ==> !n.ForeignName?
    requires j.blobs == set n | n in d.names && n.EvidenceName? :: n.sha
    requires forall n :: n in d.names && n.EvidenceName? ==>
               && d.inodes[d.names[n]].content == Whole(EvidenceFile(n.sha.blob)) && n.sha.blob.size <= MAX_FILE_BYTES
    requires EntryCount(d) == |j.events|
    requires forall k :: 0 < k <= |j.events| ==>
               && EntryName(k) in d.names && d.inodes[d.names[EntryName(k)]].content == Whole(FileAt(j.events, k))
               && Size(rules, FileAt(j.events, k)) <= MAX_FILE_BYTES
    ensures Scannable(rules, d, j)
  {
    hide ValidChain, EntryAt, GoodLinks;
    OnlyEntries(set n | n in d.names && n.EntryName?, |j.events|);
    forall n | n in Published(d, IsStaged) && n.EvidenceName?
      ensures n.sha in j.blobs
    {
    }
    assert forall s :: s in j.blobs ==> EvidenceName(s) in d.names;
  }
}
