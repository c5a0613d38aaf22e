/** The Decision Journal's two writers, system call by system call, on a volume whose user may
    be killed between any two calls. */
module JournalStore {
  import opened Options
  import opened FileSystem
  import opened JournalTypes
  import opened JournalChain
  import opened JournalFiles
  import Appending = JournalAppend

  type Material = Appending.Material

  datatype Status = Alive | Dead | Conflict

  datatype Outcome = Interruption | Rejection | Accepted(results: seq<Appending.Result>)

  /** What the batch decided for one material: an entry to publish, or the event already at that sequence. */
  datatype Decision = Write(entry: Entry) | Keep(sequence: nat)

  function EvidenceNames(names: set<Name>): set<Digest> {
    set n | n in names && n.EvidenceName? :: n.sha
  }

  /** Length sums of sets of blobs. */
  lemma {:induction false} BytesAdd(s: set<Digest>, d: Digest)
    requires d !in s
    ensures Appending.Bytes(s + {d}) == Appending.Bytes(s) + d.blob.size
  {
    var t := s + {d};
    var x :| x in t && Appending.Bytes(t) == x.blob.size + Appending.Bytes(t - {x});
    if x == d {
      assert t - {x} == s;
    } else {
      assert t - {x} == (s - {x}) + {d};
      BytesAdd(s - {x}, d);
      BytesAdd(s - {x}, x);
      assert (s - {x}) + {x} == s;
    }
  }

  lemma {:induction false} BytesMonotone(s: set<Digest>, t: set<Digest>)
    requires s <= t
    ensures Appending.Bytes(s) <= Appending.Bytes(t)
    decreases |t - s|
  {
    if t - s == {} {
      assert t == s + (t - s) == s;
    } else {
      var d :| d in t - s;
      BytesAdd(s, d);
      assert t - (s + {d}) < t - s;
      SmallerSet(t - (s + {d}), t - s);
      BytesMonotone(s + {d}, t);
    }
  }

  lemma SmallerSet<T>(a: set<T>, b: set<T>)
    requires a < b
    ensures |a| < |b|
  {
    var rest := b - a;
    assert b == a + rest && rest != {};
  }

  lemma {:induction false} SuppliedGrows(ms: seq<Material>, i: nat)
    requires i <= |ms|
    ensures Appending.AllSupplied(ms[..i]) <= Appending.AllSupplied(ms)
    ensures i < |ms| ==>
              Appending.AllSupplied(ms[..i + 1]) == Appending.AllSupplied(ms[..i]) + Appending.Supplied(ms[i].evidence)
    decreases |ms| - i
  {
    if i < |ms| {
      assert ms[..i + 1][..i] == ms[..i];
      SuppliedGrows(ms, i + 1);
    } else {
      assert ms[..i] == ms;
    }
  }

  class JournalStore {
    const volume: Volume<Name, File>
    const rules: Rules

    constructor (volume: Volume<Name, File>, rules: Rules)
      ensures this.volume == volume && this.rules == rules
    {
      this.volume := volume;
      this.rules := rules;
    }

    /** `_scan`: returns the journal exactly when the disk holds one. */
    method Scan() returns (j: Option<Journal>)
      requires WellFormed(volume.disk)
      ensures j == Verified(rules, volume.disk)
    {
      hide Scannable, ValidEvent, Tidy, GoodLinks, EntryAt;
      var d := volume.disk;
      var names := d.names.Keys;
      if exists n :: n in names && n.ForeignName? {
        ForeignRefused(d);
        return None;
      }
      var blobs: set<Digest> := {};
      var todo := set n | n in names && n.EvidenceName?;
      while todo != {}
        invariant todo <= names && forall n :: n in todo ==> n.EvidenceName?
        invariant EvidenceNames(names) == blobs + EvidenceNames(todo)
        invariant forall n :: n in names && n.EvidenceName? && n !in todo ==>
                    && d.inodes[d.names[n]].content == Whole(EvidenceFile(n.sha.blob)) && n.sha.blob.size <= MAX_FILE_BYTES
        decreases |todo|
      {
        var name :| name in todo;
        var content := d.inodes[d.names[name]].content;
        if content.Torn? || !content.bytes.EvidenceFile? || content.bytes.blob.size > MAX_FILE_BYTES
           || Sha(content.bytes.blob) != name.sha {
          EvidenceRefused(d, name);
          return None;
        }
        blobs := blobs + {name.sha};
        todo := todo - {name};
      }
      assert blobs == EvidenceNames(names);
      if exists n :: n in names && n.StagedName? && d.inodes[d.names[n]].content.Whole?
                     && Size(rules, d.inodes[d.names[n]].content.bytes) > MAX_FILE_BYTES {
        StagedRefused(d);
        return None;
      }
      var events := Entries(blobs);
      if events.None? {
        return None;
      }
      var linked := ValidateLinks();
      if !linked {
        return None;
      }
      var found := Appending.Journal(events.value, blobs);
      assert Tidy(rules, d) by { LinksMakeTidy(d); }
      Gathered(rules, d, found);
      VerifiedIs(rules, d, found);
      return Some(found);
    }

    lemma ForeignRefused(d: Disk<Name, File>)
      requires exists n :: n in d.names && n.ForeignName?
      ensures Verified(rules, d).None?
    {
      hide Scannable;
      if Verified(rules, d).Some? { ScannableShows(rules, d, Verified(rules, d).value); }
    }

    lemma EvidenceRefused(d: Disk<Name, File>, n: Name)
      requires n in d.names && n.EvidenceName? && d.names[n] in d.inodes
      requires d.inodes[d.names[n]].content != Whole(EvidenceFile(n.sha.blob)) || n.sha.blob.size > MAX_FILE_BYTES
      ensures Verified(rules, d).None?
    {
      hide Scannable;
      if Verified(rules, d).Some? { ScannableShows(rules, d, Verified(rules, d).value); }
    }

    lemma StagedRefused(d: Disk<Name, File>)
      requires !StagedFits(rules, d)
      ensures Verified(rules, d).None?
    {
      hide ValidChain, Stores;
    }

    lemma LinksRefused(d: Disk<Name, File>, n: Name)
      requires n in d.names && !GoodLinks(d, n)
      ensures Verified(rules, d).None?
    {
      hide ValidChain, Stores, GoodLinks;
    }

    lemma LinksMakeTidy(d: Disk<Name, File>)
      requires WellFormed(d) && StagedFits(rules, d) && forall n :: n in d.names ==> GoodLinks(d, n)
      ensures Tidy(rules, d)
    {
    }

    /** The entry loop of `_scan`: the chain of the listed entries, if there is one over this evidence. */
    method Entries(blobs: set<Digest>) returns (r: Option<seq<Event>>)
      requires WellFormed(volume.disk)
      requires blobs == EvidenceNames(volume.disk.names.Keys)
      ensures r.Some? ==>
                && ValidChain(rules, r.value, blobs) && EntryCount(volume.disk) == |r.value|
                && forall k :: 0 < k <= |r.value| ==>
                     && EntryName(k) in volume.disk.names
                     && volume.disk.inodes[volume.disk.names[EntryName(k)]].content == Whole(FileAt(r.value, k))
                     && Size(rules, FileAt(r.value, k)) <= MAX_FILE_BYTES
      ensures r.None? ==> Verified(rules, volume.disk).None?
    {
      hide Scannable, ValidEvent, ValidChain, GoodLinks, EntryAt;
      var d := volume.disk;
      var count := |set n | n in d.names && n.EntryName?|;
      ghost var j := Verified(rules, d);
      if j.Some? {
        ScannableShows(rules, d, j.value);
        assert j.value.blobs == blobs;
      }
      var events: seq<Event> := [];
      var previous: Option<Seal> := None;
      var sequence := 1;
      assert ValidChain(rules, events, blobs) by { EmptyChain(blobs); }
      while sequence <= count
        invariant 1 <= sequence <= count + 1 && |events| == sequence - 1
        invariant previous == SealAt(events, |events|)
        invariant ValidChain(rules, events, blobs)
        invariant forall k :: 0 < k < sequence ==>
                    && EntryName(k) in d.names && d.inodes[d.names[EntryName(k)]].content == Whole(FileAt(events, k))
                    && Size(rules, FileAt(events, k)) <= MAX_FILE_BYTES
        invariant j.Some? ==> events <= j.value.events
      {
        var name := EntryName(sequence);
        if j.Some? { ScannableEntry(rules, d, j.value, events, sequence); }
        if name !in d.names {
          return None;
        }
        var content := d.inodes[d.names[name]].content;
        if content.Torn? || !content.bytes.EntryFile? || Size(rules, content.bytes) > MAX_FILE_BYTES {
          return None;
        }
        var file := content.bytes;
        if file.entry.sequence != sequence || file.entry.previous != previous || !file.canonical
           || file.eventHash != file.entry.event {
          return None;
        }
        if !ValidEvent(rules, file.entry.event, events, blobs) {
          return None;
        }
        ghost var longer := events + [file.entry.event];
        ChainGrows(rules, events, file.entry.event, blobs);
        EntriesKept(events, file.entry.event);
        assert file.entry == EntryAt(longer, sequence) by { EntryOfNext(events, file.entry); }
        events := events + [file.entry.event];
        previous := Some(Seal(file.entry));
        sequence := sequence + 1;
        assert previous == SealAt(events, |events|) by { SealOfNext(events); }
      }
      return Some(events);
    }

    lemma EmptyChain(blobs: set<Digest>)
      ensures ValidChain(rules, [], blobs)
    {
    }

    lemma SealOfNext(events: seq<Event>)
      requires events != []
      ensures SealAt(events, |events|) == Some(Seal(EntryAt(events, |events|)))
    {
    }

    lemma EntryOfNext(events: seq<Event>, entry: Entry)
      requires entry.sequence == |events| + 1 && entry.previous == SealAt(events, |events|)
      ensures entry == EntryAt(events + [entry.event], |events| + 1)
    {
      EntryOfPrefix(events, events + [entry.event], |events|);
    }

    lemma EntriesKept(events: seq<Event>, e: Event)
      ensures forall k :: 0 < k <= |events| ==> FileAt(events + [e], k) == FileAt(events, k)
    {
      forall k | 0 < k <= |events|
        ensures FileAt(events + [e], k) == FileAt(events, k)
      {
        EntryOfPrefix(events, events + [e], k);
      }
    }

    /** `_validate_links`, name by name. */
    method ValidateLinks() returns (ok: bool)
      requires WellFormed(volume.disk)
      requires StagedFits(rules, volume.disk)
      ensures ok <==> forall n :: n in volume.disk.names ==> GoodLinks(volume.disk, n)
      ensures !ok ==> Verified(rules, volume.disk).None?
    {
      hide Scannable, Stores, ValidChain;
      var d := volume.disk;
      var todo := d.names.Keys;
      while todo != {}
        invariant todo <= d.names.Keys
        invariant forall n :: n in d.names && n !in todo ==> GoodLinks(d, n)
        decreases |todo|
      {
        var name :| name in todo;
        var links := d.inodes[d.names[name]].links;
        var others := set m | m in d.names && m != name && d.names[m] == d.names[name];
        if links == 1 && others == {} {
          assert Sole(d, name) by {
            forall m | m in d.names && m != name ensures d.names[m] != d.names[name] { assert m !in others; }
          }
        } else if links == 2 && exists m :: m in others && others == {m} && (m.StagedName? != name.StagedName?) {
          var m :| m in others && others == {m} && (m.StagedName? != name.StagedName?);
          assert Twin(d, name, m) by {
            forall k | k in d.names && k != name && k != m ensures d.names[k] != d.names[name] { assert k !in others; }
          }
        } else {
          BadLinks(d, name, others);
          LinksRefused(d, name);
          return false;
        }
        todo := todo - {name};
      }
      return true;
    }

    lemma BadLinks(d: Disk<Name, File>, n: Name, others: set<Name>)
      requires n in d.names && d.names[n] in d.inodes
      requires others == set m | m in d.names && m != n && d.names[m] == d.names[n]
      requires !(d.inodes[d.names[n]].links == 1 && others == {})
      requires !(d.inodes[d.names[n]].links == 2 && exists m :: m in others && others == {m} && (m.StagedName? != n.StagedName?))
      ensures !GoodLinks(d, n)
    {
      assert Sole(d, n) ==> others == {};
      assert forall m :: Twin(d, n, m) ==> others == {m};
    }

    // ---------------------------------------------------------------- publishing

    /** Discards verified staging files, under the writer lock. */
    method ClearStaging(ghost j: Journal) returns (status: Status)
      requires Scannable(rules, volume.disk, j)
      modifies volume
      ensures Scannable(rules, volume.disk, j) && !status.Conflict?
      ensures status.Alive? ==> Settled(volume.disk, IsStaged)
      ensures status.Dead? ==> volume.budget == 0
      ensures old(Interrupted(volume.disk, IsStaged)) ==> Interrupted(volume.disk, IsStaged)
    {
      hide Stores, ValidChain, GoodLinks, Apply, Interrupted, Settled, Tidy, Published;
      var todo := set n | n in volume.disk.names && n.StagedName?;
      ghost var d0 := volume.disk;
      while todo != {}
        invariant Scannable(rules, volume.disk, j)
        invariant todo == set n | n in volume.disk.names && n.StagedName?
        invariant Interrupted(d0, IsStaged) ==> Interrupted(volume.disk, IsStaged)
        decreases |todo|
      {
        var name :| name in todo;
        Discarded(rules, volume.disk, name);
        if Interrupted(d0, IsStaged) {
          DiscardedInterrupted(volume.disk, name);
          SettledInterrupted(Apply(volume.disk, Unlink(name)).value);
        }
        var answer := volume.Issue(Unlink(name));
        if answer.Killed? {
          return Dead;
        }
        todo := todo - {name};
      }
      assert forall n :: n in volume.disk.names && n.StagedName? ==> n in todo;
      TidyIsSettled(rules, volume.disk);
      return Alive;
    }

    lemma DiscardedInterrupted(d: Disk<Name, File>, t: Name)
      requires Interrupted(d, IsStaged) && t in d.names && t.StagedName?
      ensures Apply(d, Unlink(t)).Some? && Settled(Apply(d, Unlink(t)).value, IsStaged)
    {
      hide Settled, Published;
      if u :| Staging(d, IsStaged, u) {
        assert u == t;
        Dropped(d, IsStaged, t);
      } else if u, n :| HalfLinked(d, IsStaged, u, n) {
        assert u == t;
        Finished(d, IsStaged, t, n);
      } else {
        assert Settled(d, IsStaged);
        NothingStaged(d);
      }
    }

    lemma NothingStaged(d: Disk<Name, File>)
      requires Settled(d, IsStaged)
      ensures forall n :: n in d.names ==> !n.StagedName?
    {
    }

    /** `_publish_immutable`: whole durable bytes under a new name, or nothing under it. */
    method Publish(name: Name, token: nat, raw: File) returns (status: Status)
      requires Settled(volume.disk, IsStaged) && !name.StagedName? && Size(rules, raw) <= MAX_FILE_BYTES
      modifies volume
      ensures Interrupted(volume.disk, IsStaged) && StagedFits(rules, volume.disk)
      ensures name in old(Published(volume.disk, IsStaged)) ==>
                !status.Alive? && Published(volume.disk, IsStaged) == old(Published(volume.disk, IsStaged))
      ensures name !in old(Published(volume.disk, IsStaged)) ==>
                && !status.Conflict?
                && (|| Published(volume.disk, IsStaged) == old(Published(volume.disk, IsStaged))[name := Whole(raw)]
                    || (status.Dead? && Published(volume.disk, IsStaged) == old(Published(volume.disk, IsStaged))))
      ensures !status.Dead? ==> Settled(volume.disk, IsStaged)
      ensures status.Dead? ==> volume.budget == 0
    {
      hide Settled, Staging, HalfLinked, Published, Apply, Size;
      ghost var d0 := volume.disk;
      var temporary := StagedName(token);
      SettledFits(volume.disk);
      Created(volume.disk, IsStaged, temporary);
      var answer := volume.Issue(Create(temporary));
      if answer.Killed? {
        return Dead;
      }
      TornFits(d0, temporary);
      Filled(volume.disk, IsStaged, temporary, raw);
      answer := volume.Issue(Fill(temporary, raw));
      if answer.Killed? {
        return Dead;
      }
      OnlyThisStaged(volume.disk, temporary, raw);
      Linked(volume.disk, IsStaged, temporary, name);
      Dropped(volume.disk, IsStaged, temporary);
      answer := volume.Issue(Link(temporary, name));
      if answer.Killed? {
        return Dead;
      }
      if answer.Refused? {
        answer := volume.Issue(Unlink(temporary));
        if answer.Killed? {
          return Dead;
        }
        SettledFits(volume.disk);
        return Conflict;
      }
      TwinFits(volume.disk, temporary, name, raw);
      Finished(volume.disk, IsStaged, temporary, name);
      answer := volume.Issue(Unlink(temporary));
      if answer.Killed? {
        return Dead;
      }
      SettledFits(volume.disk);
      return Alive;
    }

    lemma SettledFits(d: Disk<Name, File>)
      requires Settled(d, IsStaged)
      ensures StagedFits(rules, d)
    {
    }

    lemma TornFits(d: Disk<Name, File>, t: Name)
      requires Settled(d, IsStaged) && t.StagedName? && Apply(d, Create(t)).Some?
      ensures StagedFits(rules, Apply(d, Create(t)).value)
    {
    }

    lemma OnlyThisStaged(d: Disk<Name, File>, t: Name, raw: File)
      requires Staging(d, IsStaged, t) && d.inodes[d.names[t]].content == Whole(raw) && Size(rules, raw) <= MAX_FILE_BYTES
      ensures StagedFits(rules, d)
    {
    }

    lemma TwinFits(d: Disk<Name, File>, t: Name, n: Name, raw: File)
      requires HalfLinked(d, IsStaged, t, n) && n in Published(d, IsStaged) && Published(d, IsStaged)[n] == Whole(raw)
      requires Size(rules, raw) <= MAX_FILE_BYTES
      ensures StagedFits(rules, d)
    {
    }

    /** One evidence publication, finished or killed. */
    lemma EvidenceStep(d: Disk<Name, File>, d': Disk<Name, File>, j: Journal, digest: Digest)
      requires Scannable(rules, d, j) && digest !in j.blobs && digest.blob.size <= MAX_FILE_BYTES
      requires Interrupted(d', IsStaged) && StagedFits(rules, d')
      requires || Published(d', IsStaged) == Published(d, IsStaged)
               || Published(d', IsStaged) == Published(d, IsStaged)[EvidenceName(digest) := Whole(EvidenceFile(digest.blob))]
      ensures EvidenceName(digest) !in Published(d, IsStaged)
      ensures EvidenceName(digest) in Published(d', IsStaged) ==>
                Scannable(rules, d', Appending.Journal(j.events, j.blobs + {digest}))
      ensures EvidenceName(digest) !in Published(d', IsStaged) ==> Scannable(rules, d', j)
    {
      hide Stores, ValidChain, Tidy, StagedFits, Interrupted, Published;
      InterruptedIsTidy(rules, d');
      StoresEvidence(rules, Published(d, IsStaged), j, digest);
      ChainWithMore(rules, j.events, j.blobs, j.blobs + {digest});
    }

    /** One entry publication, finished or killed. */
    lemma EntryStep(d: Disk<Name, File>, d': Disk<Name, File>, j: Journal, e: Event)
      requires Scannable(rules, d, j) && Appending.EntryFits(rules, j.events + [e])
      requires ValidEvent(rules, e, j.events, j.blobs)
      requires Interrupted(d', IsStaged) && StagedFits(rules, d')
      requires var n, files := |j.events| + 1, Published(d, IsStaged);
        || Published(d', IsStaged) == files
        || Published(d', IsStaged) == files[EntryName(n) := Whole(FileAt(j.events + [e], n))]
      ensures EntryName(|j.events| + 1) !in Published(d, IsStaged)
      ensures EntryName(|j.events| + 1) in Published(d', IsStaged) ==>
                Scannable(rules, d', Appending.Journal(j.events + [e], j.blobs))
      ensures EntryName(|j.events| + 1) !in Published(d', IsStaged) ==> Scannable(rules, d', j)
    {
      hide Stores, ValidChain, ValidEvent, Tidy, StagedFits, Interrupted, Published, EntryAt, Appending.EntryFits;
      InterruptedIsTidy(rules, d');
      StoresEntry(rules, Published(d, IsStaged), j, e);
      ChainGrows(rules, j.events, e, j.blobs);
    }

    lemma FreshNames(d: Disk<Name, File>, j: Journal)
      requires Scannable(rules, d, j)
      ensures EntryName(|j.events| + 1) !in Published(d, IsStaged)
      ensures forall s :: s !in j.blobs ==> EvidenceName(s) !in Published(d, IsStaged)
    {
      hide ValidChain, Tidy, Published;
    }

    lemma EntryIsSmall(events: seq<Event>)
      requires events != [] && Appending.EntryFits(rules, events)
      ensures Size(rules, FileAt(events, |events|)) <= MAX_FILE_BYTES
    {
    }

    lemma SettledInterrupted(d: Disk<Name, File>)
      requires Settled(d, IsStaged)
      ensures Interrupted(d, IsStaged)
    {
    }

    /** Publishes what one validated event needs, evidence first and its entry last. */
    method PublishEvent(e: Event, token: nat, retained: set<Digest>, sequence: nat, previous: Option<Seal>, ghost j: Journal)
        returns (status: Status, ghost k: Journal)
      requires Scannable(rules, volume.disk, j) && Settled(volume.disk, IsStaged) && retained == j.blobs
      requires sequence == |j.events| + 1 && previous == SealAt(j.events, |j.events|)
      requires ValidEvent(rules, e, j.events, Shas(e)) && Appending.EntryFits(rules, j.events + [e])
      requires forall d :: d in Shas(e) ==> d.blob.size <= MAX_FILE_BYTES
      modifies volume
      ensures Scannable(rules, volume.disk, k) && Interrupted(volume.disk, IsStaged) && !status.Conflict?
      ensures Appending.Between(j, k, Appending.Journal(j.events + [e], j.blobs + Shas(e)))
      ensures status.Alive? ==> Settled(volume.disk, IsStaged) && k == Appending.Journal(j.events + [e], j.blobs + Shas(e))
      ensures status.Dead? ==> volume.budget == 0
    {
      hide Scannable, ValidEvent, Settled, Published, Appending.EntryFits, Interrupted, StagedFits, EntryAt, FileAt, Shas, SealAt;
      k := j;
      var missing := Shas(e) - retained;
      while missing != {}
        invariant Scannable(rules, volume.disk, k) && Settled(volume.disk, IsStaged)
        invariant k.events == j.events && j.blobs <= k.blobs <= j.blobs + Shas(e)
        invariant missing == Shas(e) - k.blobs
        decreases |missing|
      {
        var digest :| digest in missing;
        ghost var before := volume.disk;
        FreshNames(before, k);
        status := Publish(EvidenceName(digest), token, EvidenceFile(digest.blob));
        EvidenceStep(before, volume.disk, k, digest);
        if EvidenceName(digest) in Published(volume.disk, IsStaged) { k := k.(blobs := k.blobs + {digest}); }
        if status.Dead? {
          return;
        }
        missing := missing - {digest};
      }
      ghost var before := volume.disk;
      assert forall d :: d in Shas(e) && d !in k.blobs ==> d in missing;
      assert k.blobs == j.blobs + Shas(e);
      ValidWithMore(rules, e, j.events, Shas(e), k.blobs);
      var entry := Entry(sequence, previous, e);
      var file := EntryFile(entry, e, true);
      assert file == FileAt(j.events + [e], sequence) by { FileOfNext(j.events, entry); }
      EntryIsSmall(j.events + [e]);
      FreshNames(before, k);
      status := Publish(EntryName(sequence), token, file);
      EntryStep(before, volume.disk, k, e);
      if EntryName(sequence) in Published(volume.disk, IsStaged) { k := k.(events := k.events + [e]); }
    }

    lemma FileOfNext(events: seq<Event>, entry: Entry)
      requires entry.sequence == |events| + 1 && entry.previous == SealAt(events, |events|)
      ensures EntryFile(entry, entry.event, true) == FileAt(events + [entry.event], |events| + 1)
    {
      hide EntryAt;
      EntryOfNext(events, entry);
    }

    // ---------------------------------------------------------------- the two writers

    /** The checks `append` makes on the supplied evidence, key by key. */
    method CheckSupplied(e: Event, evidence: map<Appending.Key, Blob>) returns (ok: bool, supplied: set<Digest>)
      ensures ok <==> forall k :: k in evidence ==> Appending.GoodKey(e, k, evidence[k])
      ensures ok ==> supplied == Appending.Supplied(evidence)
      ensures ok <==> forall k :: k in evidence ==>
                        && evidence[k].size <= MAX_FILE_BYTES
                        && (k.ByDigest? ==> k.sha == Sha(evidence[k]))
                        && (k.ByPath? && k.path in e.evidence ==> e.evidence[k.path].sha == Sha(evidence[k]))
    {
      var todo := evidence.Keys;
      supplied := {};
      while todo != {}
        invariant todo <= evidence.Keys
        invariant forall k :: k in evidence && k !in todo ==> Appending.GoodKey(e, k, evidence[k])
        invariant supplied == set k | k in evidence && k !in todo :: Sha(evidence[k])
        decreases |todo|
      {
        var key :| key in todo;
        if !Appending.GoodKey(e, key, evidence[key]) {
          return false, {};
        }
        supplied := supplied + {Sha(evidence[key])};
        todo := todo - {key};
      }
      return true, supplied;
    }

    /** Every candidate digest names bytes a scan will be able to read back. */
    lemma CandidatesAreSmall(j: Journal, m: Material)
      requires Scannable(rules, volume.disk, j) && Appending.WellFormed(rules, m)
      ensures forall d :: d in j.blobs + Appending.Supplied(m.evidence) ==> d.blob.size <= MAX_FILE_BYTES
    {
      hide ValidChain, Tidy, Published;
      forall d | d in Appending.Supplied(m.evidence)
        ensures d.blob.size <= MAX_FILE_BYTES
      {
        var k :| k in m.evidence && Sha(m.evidence[k]) == d;
        assert Appending.GoodKey(m.event, k, m.evidence[k]);
      }
    }

    /** `JournalStore.append`.  It answers as the specification does; wherever it is killed, a
        rescan finds the old chain with or without the event, and only evidence the event needs. */
    method Append(m: Material, token: nat) returns (outcome: Outcome)
      requires WellFormed(volume.disk)
      modifies volume
      ensures WellFormed(volume.disk)
      ensures old(Verified(rules, volume.disk)).None? ==> outcome.Rejection? && volume.disk == old(volume.disk)
      ensures outcome.Interruption? ==> volume.budget == 0
      ensures old(Verified(rules, volume.disk)).Some? ==>
                var j := old(Verified(rules, volume.disk)).value;
                var done := Appending.AppendOne(rules, j, m);
                && Verified(rules, volume.disk).Some?
                && (done.None? ==> !outcome.Accepted? && Verified(rules, volume.disk) == Some(j))
                && (done.Some? ==>
                      && !outcome.Rejection?
                      && Appending.Between(j, Verified(rules, volume.disk).value, done.value.journal)
                      && (outcome.Accepted? ==>
                            && Verified(rules, volume.disk) == Some(done.value.journal)
                            && outcome.results == done.value.results && Settled(volume.disk, IsStaged)))
      ensures old(Verified(rules, volume.disk)).Some? && old(Interrupted(volume.disk, IsStaged)) ==>
                Interrupted(volume.disk, IsStaged)
    {
      hide Scannable, ValidEvent, Settled, Published, Appending.EntryFits, Interrupted, StagedFits, EntryAt, Shas, SealAt,
           Contract, Appending.Supplied, Appending.Find, Appending.GoodKey;
      ghost var d0 := volume.disk;
      if !Contract(m.event) || rules.eventSize(m.event) > MAX_FILE_BYTES {
        return Rejection;
      }
      var scanned := Scan();
      if scanned.None? {
        return Rejection;
      }
      var j := scanned.value;
      var status := ClearStaging(j);
      VerifiedIs(rules, volume.disk, j);
      ScannableIsWellFormed(volume.disk, j);
      if status.Dead? {
        return Interruption;
      }
      SettledInterrupted(volume.disk);
      var ok, supplied := CheckSupplied(m.event, m.evidence);
      if !ok {
        return Rejection;
      }
      var found := Appending.Find(j.events, m.event.id);
      if found.Some? {
        if j.events[found.value] != m.event {
          return Rejection;
        }
        assert j.blobs + {} == j.blobs;
        return Accepted([Appending.Result(false, found.value + 1)]);
      }
      var candidates := j.blobs + supplied;
      if !ValidEvent(rules, m.event, j.events, candidates) || !Appending.EntryFits(rules, j.events + [m.event]) {
        return Rejection;
      }
      CandidatesAreSmall(j, m);
      Appending.RetainedShas(rules, m.event, j.events, candidates, Shas(m.event));
      var sequence := |j.events| + 1;
      var previous := SealAt(j.events, |j.events|);
      ghost var k;
      status, k := PublishEvent(m.event, token, j.blobs, sequence, previous, j);
      VerifiedIs(rules, volume.disk, k);
      ScannableIsWellFormed(volume.disk, k);
      if status.Dead? {
        return Interruption;
      }
      return Accepted([Appending.Result(true, sequence)]);
    }

    lemma ScannableIsWellFormed(d: Disk<Name, File>, j: Journal)
      requires Scannable(rules, d, j)
      ensures WellFormed(d)
    {
    }

    /** The first half of `append_journal_batch`: admits the batch before the journal is touched. */
    method Prepare(ms: seq<Material>) returns (ok: bool, supplied: set<Digest>)
      ensures ok <==> Appending.Admitted(rules, ms)
      ensures ok ==> supplied == Appending.AllSupplied(ms)
    {
      hide Contract, Appending.GoodKey, Appending.Bytes, Appending.AllSupplied, Appending.Supplied;
      supplied := {};
      if !(1 <= |ms| <= Appending.MAX_BATCH_EVENTS) {
        return false, {};
      }
      var identities: set<EventId> := {};
      var bytes := 0;
      assert Appending.AllSupplied(ms[..0]) == {} && Appending.Bytes({}) == 0 by { NothingSupplied(ms); }
      for i := 0 to |ms|
        invariant identities == set x | 0 <= x < i :: ms[x].event.id
        invariant forall x, y :: 0 <= x < y < i ==> ms[x].event.id != ms[y].event.id
        invariant forall x :: 0 <= x < i ==> Appending.WellFormed(rules, ms[x])
        invariant supplied == Appending.AllSupplied(ms[..i])
        invariant bytes == Appending.Bytes(supplied) <= Appending.MAX_BATCH_SUPPLIED_BYTES
      {
        var m := ms[i];
        if !Contract(m.event) || m.event.id in identities || rules.eventSize(m.event) > MAX_FILE_BYTES {
          return false, {};
        }
        identities := identities + {m.event.id};
        var good, own := CheckSupplied(m.event, m.evidence);
        if !good {
          return false, {};
        }
        SuppliedGrows(ms, i);
        SuppliedGrows(ms, i + 1);
        good, supplied, bytes := CountBytes(supplied, own, bytes);
        if !good {
          BytesMonotone(Appending.AllSupplied(ms[..i + 1]), Appending.AllSupplied(ms));
          return false, {};
        }
      }
      assert ms[..|ms|] == ms;
      return true, supplied;
    }

    /** Adds the bytes of digests not supplied before; false once the bound is passed. */
    method CountBytes(supplied: set<Digest>, own: set<Digest>, bytes: nat) returns (ok: bool, all: set<Digest>, total: nat)
      requires bytes == Appending.Bytes(supplied) <= Appending.MAX_BATCH_SUPPLIED_BYTES
      ensures ok <==> Appending.Bytes(supplied + own) <= Appending.MAX_BATCH_SUPPLIED_BYTES
      ensures ok ==> all == supplied + own && total == Appending.Bytes(all)
    {
      hide Appending.Bytes;
      all, total := supplied, bytes;
      var todo := own - supplied;
      while todo != {}
        invariant todo == own - all && supplied <= all <= supplied + own
        invariant total == Appending.Bytes(all) <= Appending.MAX_BATCH_SUPPLIED_BYTES
        decreases |todo|
      {
        var digest :| digest in todo;
        BytesAdd(all, digest);
        total := total + digest.blob.size;
        all := all + {digest};
        if total > Appending.MAX_BATCH_SUPPLIED_BYTES {
          BytesMonotone(all, supplied + own);
          return false, all, total;
        }
        todo := todo - {digest};
      }
      assert forall d :: d in own && d !in all ==> d in todo;
      assert all == supplied + own;
      return true, all, total;
    }

    lemma NothingSupplied(ms: seq<Material>)
      ensures Appending.AllSupplied(ms[..0]) == {} && Appending.Bytes({}) == 0
    {
    }

    /** The events of a batch against the candidate prefixes they extend. */
    ghost predicate Prefixes(j: Journal, ms: seq<Material>, candidates: set<Digest>, planned: seq<Decision>, prefixes: seq<seq<Event>>) {
      && |planned| <= |ms| && |prefixes| == |planned| + 1 && prefixes[0] == j.events
      && (forall x :: 0 <= x < |planned| ==> Decided(ms[x].event, candidates, planned[x], prefixes[x], prefixes[x + 1]))
      && (forall x :: 0 <= x < |prefixes| ==> j.events <= prefixes[x] <= prefixes[|planned|])
    }

    ghost predicate Decided(e: Event, candidates: set<Digest>, decision: Decision, before: seq<Event>, after: seq<Event>) {
      match decision
      case Keep(n) => after == before
      case Write(entry) =>
        && after == before + [e] && entry == Entry(|before| + 1, SealAt(before, |before|), e)
        && ValidEvent(rules, e, before, candidates) && Appending.EntryFits(rules, after)
    }

    function ResultOf(decision: Decision): Appending.Result {
      match decision
      case Keep(n) => Appending.Result(false, n)
      case Write(entry) => Appending.Result(true, entry.sequence)
    }

    function Results(planned: seq<Decision>): seq<Appending.Result> {
      seq(|planned|, x requires 0 <= x < |planned| => ResultOf(planned[x]))
    }

    lemma NextDecision(j: Journal, ms: seq<Material>, candidates: set<Digest>, planned: seq<Decision>, prefixes: seq<seq<Event>>,
                       decision: Decision, after: seq<Event>)
      requires Prefixes(j, ms, candidates, planned, prefixes) && |planned| < |ms|
      requires Decided(ms[|planned|].event, candidates, decision, prefixes[|planned|], after) && prefixes[|planned|] <= after
      requires Appending.Plan(rules, j.events, ms[..|planned|], candidates)
                 == Some(Appending.Planned(prefixes[|planned|], Results(planned)))
      requires Appending.Step(rules, prefixes[|planned|], ms[|planned|].event, candidates)
                 == Some(Appending.Stepped(after, ResultOf(decision)))
      ensures Prefixes(j, ms, candidates, planned + [decision], prefixes + [after])
      ensures Appending.Plan(rules, j.events, ms[..|planned| + 1], candidates)
                == Some(Appending.Planned(after, Results(planned + [decision])))
    {
      hide Decided, Appending.Step;
      var n := |planned|;
      assert ms[..n + 1][..n] == ms[..n];
      assert Results(planned + [decision]) == Results(planned) + [ResultOf(decision)];
    }

    lemma PlanStops(j: Journal, ms: seq<Material>, candidates: set<Digest>, i: nat, prefix: seq<Event>, results: seq<Appending.Result>)
      requires i < |ms| && Appending.Plan(rules, j.events, ms[..i], candidates) == Some(Appending.Planned(prefix, results))
      requires Appending.Step(rules, prefix, ms[i].event, candidates).None?
      ensures Appending.Plan(rules, j.events, ms, candidates).None?
    {
      hide Appending.Step;
      assert ms[..i + 1][..i] == ms[..i];
      Appending.PlanFails(rules, j.events, ms, candidates, i + 1);
    }

    /** The validation loop: the whole candidate suffix, before anything new is published. */
    method PlanBatch(j: Journal, ms: seq<Material>, supplied: set<Digest>)
        returns (ok: bool, planned: seq<Decision>, ghost prefixes: seq<seq<Event>>)
      ensures ok <==> Appending.Plan(rules, j.events, ms, j.blobs + supplied).Some?
      ensures ok ==>
                && |planned| == |ms| && Prefixes(j, ms, j.blobs + supplied, planned, prefixes)
                && Appending.Plan(rules, j.events, ms, j.blobs + supplied)
                     == Some(Appending.Planned(prefixes[|ms|], Results(planned)))
    {
      var candidates := j.blobs + supplied;
      var prefix, predecessor, sequence := j.events, SealAt(j.events, |j.events|), |j.events|;
      planned, prefixes := [], [j.events];
      assert ms[..0] == [] && Results([]) == [];
      hide ValidEvent, Appending.EntryFits, SealAt, EntryAt, Appending.Find, Prefixes, Results, Appending.Plan;
      assert Prefixes(j, ms, candidates, planned, prefixes) by { FirstPrefix(j, ms, candidates); }
      var i := 0;
      while i < |ms|
        invariant 0 <= i <= |ms| && |planned| == i && |prefixes| == i + 1
        invariant Prefixes(j, ms, candidates, planned, prefixes) && prefix == prefixes[i]
        invariant predecessor == SealAt(prefix, |prefix|) && sequence == |prefix|
        invariant Appending.Plan(rules, j.events, ms[..i], candidates) == Some(Appending.Planned(prefix, Results(planned)))
      {
        var e := ms[i].event;
        var found := Appending.Find(prefix, e.id);
        if Appending.Step(rules, prefix, e, candidates).None? { PlanStops(j, ms, candidates, i, prefix, Results(planned)); }
        var decision, after := Keep(0), prefix;
        if found.Some? {
          if prefix[found.value] != e {
            return false, planned, prefixes;
          }
          decision := Keep(found.value + 1);
        } else {
          if !ValidEvent(rules, e, prefix, candidates) || !Appending.EntryFits(rules, prefix + [e]) {
            return false, planned, prefixes;
          }
          sequence := sequence + 1;
          var entry := Entry(sequence, predecessor, e);
          decision, after := Write(entry), prefix + [e];
          assert entry == EntryAt(after, sequence) by { EntryOfNext(prefix, entry); }
          predecessor := Some(Seal(entry));
          assert predecessor == SealAt(after, |after|) by { SealOfNext(after); }
        }
        NextDecision(j, ms, candidates, planned, prefixes, decision, after);
        planned, prefixes, prefix := planned + [decision], prefixes + [after], after;
        i := i + 1;
      }
      assert ms[..|ms|] == ms;
      return true, planned, prefixes;
    }

    lemma FirstPrefix(j: Journal, ms: seq<Material>, candidates: set<Digest>)
      ensures Prefixes(j, ms, candidates, [], [j.events])
    {
    }

    /** The publication loop: per event, its evidence and then its entry. */
    method PublishBatch(j: Journal, ms: seq<Material>, supplied: set<Digest>, planned: seq<Decision>, token: nat,
                        ghost prefixes: seq<seq<Event>>) returns (outcome: Outcome, ghost k: Journal)
      requires Scannable(rules, volume.disk, j) && Settled(volume.disk, IsStaged)
      requires |planned| == |ms| && Prefixes(j, ms, j.blobs + supplied, planned, prefixes)
      requires forall d :: d in j.blobs + supplied ==> d.blob.size <= MAX_FILE_BYTES
      modifies volume
      ensures Scannable(rules, volume.disk, k) && Interrupted(volume.disk, IsStaged)
      ensures !outcome.Rejection? && (outcome.Interruption? ==> volume.budget == 0)
      ensures var final := Appending.Journal(prefixes[|ms|], j.blobs + Appending.AllShas(prefixes[|ms|][|j.events|..]));
        && Appending.Between(j, k, final)
        && (outcome.Accepted? ==> k == final && outcome.results == Results(planned) && Settled(volume.disk, IsStaged))
    {
      hide Scannable, ValidEvent, Settled, Interrupted, Appending.EntryFits, SealAt, EntryAt, Shas, Appending.AllShas, Published;
      k := j;
      var retained, results := j.blobs, [];
      ghost var n := |j.events|;
      assert j.blobs + Appending.AllShas(prefixes[0][n..]) == j.blobs by { NoShas(prefixes[0], n); }
      SettledInterrupted(volume.disk);
      for i := 0 to |ms|
        invariant Scannable(rules, volume.disk, k) && Settled(volume.disk, IsStaged) && Interrupted(volume.disk, IsStaged)
        invariant k == Appending.Journal(prefixes[i], j.blobs + Appending.AllShas(prefixes[i][n..]))
        invariant retained == k.blobs
        invariant |results| == i && forall x :: 0 <= x < i ==> results[x] == ResultOf(planned[x])
      {
        var e := ms[i].event;
        assert Decided(e, j.blobs + supplied, planned[i], prefixes[i], prefixes[i + 1]);
        SuffixShas(prefixes[i + 1], prefixes[|ms|], n);
        if planned[i].Write? {
          var entry := planned[i].entry;
          Appending.RetainedShas(rules, e, prefixes[i], j.blobs + supplied, Shas(e));
          assert prefixes[i + 1][n..] == prefixes[i][n..] + [e];
          Appending.AllShasOfAppend(prefixes[i][n..], e);
          var status;
          status, k := PublishEvent(e, token, retained, entry.sequence, entry.previous, k);
          if status.Dead? {
            return Interruption, k;
          }
          retained := retained + Shas(e);
        }
        results := results + [ResultOf(planned[i])];
      }
      return Accepted(results), k;
    }

    lemma NoShas(events: seq<Event>, n: nat)
      requires n == |events|
      ensures Appending.AllShas(events[n..]) == {}
    {
    }

    lemma SuffixShas(short: seq<Event>, long: seq<Event>, n: nat)
      requires short <= long && n <= |short|
      ensures Appending.AllShas(short[n..]) <= Appending.AllShas(long[n..])
    {
      hide Shas, Appending.AllShas;
      Appending.AllShasAre(short[n..]);
      Appending.AllShasAre(long[n..]);
      assert forall i :: 0 <= i < |short[n..]| ==> short[n..][i] == long[n..][i];
    }

    lemma BatchCandidatesAreSmall(j: Journal, ms: seq<Material>)
      requires Scannable(rules, volume.disk, j) && forall i :: 0 <= i < |ms| ==> Appending.WellFormed(rules, ms[i])
      ensures forall d :: d in j.blobs + Appending.AllSupplied(ms) ==> d.blob.size <= MAX_FILE_BYTES
    {
      hide Scannable, Appending.WellFormed, Appending.Supplied;
      if ms == [] {
        EvidenceIsSmall(j);
      } else {
        BatchCandidatesAreSmall(j, ms[..|ms| - 1]);
        CandidatesAreSmall(j, ms[|ms| - 1]);
      }
    }

    lemma AdmittedSmall(j: Journal, ms: seq<Material>)
      requires Scannable(rules, volume.disk, j) && Appending.Admitted(rules, ms)
      ensures forall d :: d in j.blobs + Appending.AllSupplied(ms) ==> d.blob.size <= MAX_FILE_BYTES
    {
      hide Scannable, Appending.WellFormed;
      BatchCandidatesAreSmall(j, ms);
    }

    lemma EvidenceIsSmall(j: Journal)
      requires Scannable(rules, volume.disk, j)
      ensures forall d :: d in j.blobs ==> d.blob.size <= MAX_FILE_BYTES
    {
      hide ValidChain, Tidy, Published;
    }

    /** `append_journal_batch`.  It answers as the specification does: an invalid member publishes
        nothing at all; wherever it is killed, a rescan finds the old chain and a prefix of the
        new events, and only evidence the batch needs. */
    method AppendBatch(ms: seq<Material>, token: nat) returns (outcome: Outcome)
      requires WellFormed(volume.disk)
      modifies volume
      ensures WellFormed(volume.disk)
      ensures old(Verified(rules, volume.disk)).None? ==> outcome.Rejection? && volume.disk == old(volume.disk)
      ensures outcome.Interruption? ==> volume.budget == 0
      ensures old(Verified(rules, volume.disk)).Some? ==>
                var j := old(Verified(rules, volume.disk)).value;
                var done := Appending.Batch(rules, j, ms);
                && Verified(rules, volume.disk).Some?
                && (done.None? ==> !outcome.Accepted? && Verified(rules, volume.disk) == Some(j))
                && (done.Some? ==>
                      && !outcome.Rejection?
                      && Appending.Between(j, Verified(rules, volume.disk).value, done.value.journal)
                      && (outcome.Accepted? ==>
                            && Verified(rules, volume.disk) == Some(done.value.journal)
                            && outcome.results == done.value.results && Settled(volume.disk, IsStaged)))
      ensures old(Verified(rules, volume.disk)).Some? && old(Interrupted(volume.disk, IsStaged)) ==>
                Interrupted(volume.disk, IsStaged)
    {
      hide Scannable, Settled, Published, Interrupted, Appending.Admitted, Appending.AllSupplied, Appending.Plan, Shas, Appending.AllShas;
      var ok, supplied := Prepare(ms);
      if !ok {
        return Rejection;
      }
      var scanned := Scan();
      if scanned.None? {
        return Rejection;
      }
      var j := scanned.value;
      Appending.PlanExtends(rules, j.events, ms, j.blobs + supplied);
      var status := ClearStaging(j);
      VerifiedIs(rules, volume.disk, j);
      ScannableIsWellFormed(volume.disk, j);
      if status.Dead? {
        return Interruption;
      }
      SettledInterrupted(volume.disk);
      ghost var prefixes;
      var planned;
      ok, planned, prefixes := PlanBatch(j, ms, supplied);
      if !ok {
        return Rejection;
      }
      assert forall d :: d in j.blobs + supplied ==> d.blob.size <= MAX_FILE_BYTES by { AdmittedSmall(j, ms); }
      ghost var k;
      outcome, k := PublishBatch(j, ms, supplied, planned, token, prefixes);
      VerifiedIs(rules, volume.disk, k);
      ScannableIsWellFormed(volume.disk, k);
    }
  }
}
