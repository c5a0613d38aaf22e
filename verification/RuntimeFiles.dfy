/** The runtime ledger on disk: a directory of numbered, hash-chained event files that are
    published without replacement, recovered after a kill, and replayed on every read. */
module RuntimeFiles {
  import opened Options
  import opened FileSystem
  import opened TradingLedger

  datatype Name = Numbered(sequence: nat) | Staged(token: nat) | Foreign(text: string)

  const IsStaged: Name -> bool := (n: Name) => n.Staged?

  /** The hash of an unsigned event: distinct inputs have distinct digests. */
  datatype Digest = Sha(sequence: nat, previous: Option<Digest>, event: Event)

  datatype File = File(sequence: nat, previous: Option<Digest>, event: Event, digest: Digest)

  const EVENT_BOUND := 100000

  function DigestAt(events: seq<Event>, n: nat): Option<Digest>
    requires n <= |events|
  {
    if n == 0 then None else Some(Sha(n, DigestAt(events, n - 1), events[n - 1]))
  }

  /** The file that holds the n-th event of a chain. */
  function FileAt(events: seq<Event>, n: nat): File
    requires 0 < n <= |events|
  {
    File(n, DigestAt(events, n - 1), events[n - 1], Sha(n, DigestAt(events, n - 1), events[n - 1]))
  }

  lemma {:induction false} DigestOfPrefix(events: seq<Event>, longer: seq<Event>, n: nat)
    requires events <= longer && n <= |events|
    ensures DigestAt(events, n) == DigestAt(longer, n)
  {
    if n > 0 { DigestOfPrefix(events, longer, n - 1); }
  }

  /** The published files are exactly the chain of `events`. */
  ghost predicate Stores(files: map<Name, Content<File>>, events: seq<Event>) {
    && (forall n :: n in files <==> n.Numbered? && 0 < n.sequence <= |events|)
    && (forall k :: 0 < k <= |events| ==> files[Numbered(k)] == Whole(FileAt(events, k)))
  }

  /** What `RuntimeLedger.events` accepts: a complete bounded chain, valid on replay, with
      one link per event file.  A staged name that shares no event's inode is ignored. */
  ghost predicate Readable(d: Disk<Name, File>, retained: set<Profile>, events: seq<Event>) {
    && Stores(Published(d, IsStaged), events) && ValidLedger(events, retained)
    && |events| <= EVENT_BOUND
    && forall n :: n in d.names && !n.Staged? ==> d.names[n] in d.inodes && d.inodes[d.names[n]].links == 1
  }

  /** File k of a readable ledger holds event k under its own number, names the digest of the file
      before it, and carries the hash of exactly that. */
  lemma FilesAreChained(d: Disk<Name, File>, retained: set<Profile>, events: seq<Event>, k: nat)
    requires Readable(d, retained, events) && 1 <= k <= |events|
    ensures var files := Published(d, IsStaged);
      && Numbered(k) in files && files[Numbered(k)].Whole?
      && var f := files[Numbered(k)].bytes;
         && f.sequence == k && f.event == events[k - 1] && f.digest == Sha(k, f.previous, events[k - 1])
         && (k == 1 ==> f.previous == None)
         && (k > 1 ==>
               && Numbered(k - 1) in files && files[Numbered(k - 1)].Whole?
               && f.previous == Some(files[Numbered(k - 1)].bytes.digest))
  {
    hide ValidLedger, Published;
  }

  /** The last digest fixes the whole ledger. */
  lemma {:induction false} DigestFixesLedger(a: seq<Event>, b: seq<Event>)
    requires DigestAt(a, |a|) == DigestAt(b, |b|)
    ensures a == b
  {
    if a != [] && b != [] {
      var n := |a| - 1;
      DigestOfPrefix(a[..n], a, n);
      DigestOfPrefix(b[..n], b, n);
      DigestFixesLedger(a[..n], b[..n]);
      assert a == a[..n] + [a[n]] && b == b[..n] + [b[n]];
    }
  }

  /** A set of n names that contains the numbers 1 to n contains nothing else. */
  lemma {:induction false} OnlyNumbers(names: set<Name>, n: nat)
    requires |names| == n && forall k :: 0 < k <= n ==> Numbered(k) in names
    ensures forall m :: m in names ==> m.Numbered? && 0 < m.sequence <= n
  {
    if n > 0 {
      OnlyNumbers(names - {Numbered(n)}, n - 1);
    }
  }

  lemma {:induction false} CountNumbers(names: set<Name>, n: nat)
    requires forall m :: m in names <==> m.Numbered? && 0 < m.sequence <= n
    ensures |names| == n
  {
    if n > 0 {
      CountNumbers(names - {Numbered(n)}, n - 1);
    } else {
      assert names == {};
    }
  }

  /** A chain is determined by its files. */
  lemma SameChain(files: map<Name, Content<File>>, a: seq<Event>, b: seq<Event>)
    requires Stores(files, a) && Stores(files, b)
    ensures a == b
  {
    assert |a| == |b| by {
      assert |a| > 0 ==> Numbered(|a|) in files;
      assert |b| > 0 ==> Numbered(|b|) in files;
    }
    forall k | 0 <= k < |a|
      ensures a[k] == b[k]
    {
      assert files[Numbered(k + 1)] == Whole(FileAt(a, k + 1)) == Whole(FileAt(b, k + 1));
    }
  }

  /** Publishing the next file of the chain extends the chain by its event. */
  lemma StoresNext(files: map<Name, Content<File>>, events: seq<Event>, e: Event)
    requires Stores(files, events)
    ensures Numbered(|events| + 1) !in files
    ensures Stores(files[Numbered(|events| + 1) := Whole(FileAt(events + [e], |events| + 1))], events + [e])
  {
    var longer := events + [e];
    forall k | 0 < k <= |events|
      ensures FileAt(longer, k) == FileAt(events, k)
    {
      DigestOfPrefix(events, longer, k - 1);
    }
  }

  /** An interrupted directory has at most one staged name, alone on its inode or twinned with one event file. */
  lemma StagedNames(d: Disk<Name, File>)
    requires Interrupted(d, IsStaged)
    ensures var names := set n | n in d.names && n.Staged?;
      || (names == {} && Settled(d, IsStaged))
      || (exists t :: names == {t} && Staging(d, IsStaged, t))
      || (exists t, n :: names == {t} && HalfLinked(d, IsStaged, t, n))
  {
    var names := set n | n in d.names && n.Staged?;
    if t :| Staging(d, IsStaged, t) {
      assert names == {t};
    } else if t, n :| HalfLinked(d, IsStaged, t, n) {
      assert names == {t};
    } else {
      assert names == {};
    }
  }

  /** Removing the one staged name of an interrupted directory is safe and settles it. */
  lemma SafeToRemove(d: Disk<Name, File>, t: Name)
    requires Interrupted(d, IsStaged) && (set n | n in d.names && n.Staged?) == {t}
    ensures t in d.names && d.names[t] in d.inodes && d.inodes[d.names[t]].links in {1, 2}
    ensures d.inodes[d.names[t]].links == 2 ==>
              |set other | other in d.names && other != t && d.names[other] == d.names[t]| == 1
    ensures Apply(d, Unlink(t)).Some? && Settled(Apply(d, Unlink(t)).value, IsStaged)
    ensures Published(Apply(d, Unlink(t)).value, IsStaged) == Published(d, IsStaged)
  {
    assert t in d.names && t.Staged? by { assert t in set n | n in d.names && n.Staged?; }
    StagedNames(d);
    if n :| HalfLinked(d, IsStaged, t, n) {
      assert (set other | other in d.names && other != t && d.names[other] == d.names[t]) == {n};
      Finished(d, IsStaged, t, n);
    } else {
      assert Staging(d, IsStaged, t);
      Dropped(d, IsStaged, t);
    }
  }

  /** What the next file of a readable chain says. */
  lemma NextFile(d: Disk<Name, File>, retained: set<Profile>, events: seq<Event>, chain: seq<Event>, n: nat)
    requires Readable(d, retained, chain) && events <= chain && |events| < |chain| && n == |events| + 1
    ensures Numbered(n) in d.names && d.names[Numbered(n)] in d.inodes
    ensures d.inodes[d.names[Numbered(n)]] == Inode(Whole(FileAt(chain, n)), 1)
    ensures FileAt(chain, n).previous == DigestAt(events, |events|)
    ensures ValidCandidate(chain[|events|], events, retained)
    ensures FileAt(chain, n).event == chain[|events|]
  {
    hide ValidCandidate;
    assert Numbered(n) in Published(d, IsStaged);
    DigestOfPrefix(events, chain, |events|);
    assert chain[..|events|] == events;
  }

  /** A readable directory lists exactly as many event files as its chain has events. */
  lemma NamesOfChain(d: Disk<Name, File>, retained: set<Profile>, chain: seq<Event>)
    requires Readable(d, retained, chain)
    ensures |set n | n in d.names && !n.Staged?| == |chain|
  {
    hide ValidLedger;
    var names := set n | n in d.names && !n.Staged?;
    assert names == Published(d, IsStaged).Keys;
    CountNumbers(names, |chain|);
  }

  /** A settled directory is readable exactly when its chain is within the bound. */
  lemma SettledReads(d: Disk<Name, File>, retained: set<Profile>, chain: seq<Event>)
    requires Settled(d, IsStaged)
    ensures Stores(Published(d, IsStaged), chain) && ValidLedger(chain, retained) ==>
              (Readable(d, retained, chain) <==> |chain| <= EVENT_BOUND)
    ensures Readable(d, retained, chain) ==> Stores(Published(d, IsStaged), chain) && |chain| <= EVENT_BOUND
  {
    hide ValidLedger, Stores;
  }

  lemma BoundedChain(d: Disk<Name, File>, retained: set<Profile>, chain: seq<Event>)
    requires Readable(d, retained, chain)
    ensures |chain| <= EVENT_BOUND
  {
    hide ValidLedger, Stores;
  }

  /** A settled directory reads a published file back as it was stored. */
  lemma ReadBack(d: Disk<Name, File>, name: Name)
    requires Settled(d, IsStaged)
    ensures name in Published(d, IsStaged) <==> name in d.names
    ensures name in d.names ==>
              && d.names[name] in d.inodes && d.inodes[d.names[name]].links == 1
              && Published(d, IsStaged)[name] == d.inodes[d.names[name]].content
  {
  }

  /** A readable chain, reassembled from the names that were checked one by one. */
  lemma Assembled(d: Disk<Name, File>, retained: set<Profile>, events: seq<Event>)
    requires ValidLedger(events, retained) && |events| <= EVENT_BOUND
    requires |set n | n in d.names && !n.Staged?| == |events|
    requires forall k :: 0 < k <= |events| ==>
               && Numbered(k) in d.names && d.names[Numbered(k)] in d.inodes
               && d.inodes[d.names[Numbered(k)]] == Inode(Whole(FileAt(events, k)), 1)
    ensures Readable(d, retained, events)
  {
    hide ValidLedger;
    OnlyNumbers(set n | n in d.names && !n.Staged?, |events|);
  }

  lemma ExtendChain(events: seq<Event>, e: Event, retained: set<Profile>)
    requires ValidLedger(events, retained) && ValidCandidate(e, events, retained)
    ensures ValidLedger(events + [e], retained)
    ensures DigestAt(events + [e], |events|) == DigestAt(events, |events|)
    ensures forall k :: 0 < k <= |events| ==> FileAt(events + [e], k) == FileAt(events, k)
  {
    hide ValidCandidate, ValidLedger;
    var longer := events + [e];
    ValidAppend(events, e, retained);
    DigestOfPrefix(events, longer, |events|);
    forall k | 0 < k <= |events|
      ensures FileAt(longer, k) == FileAt(events, k)
    {
      DigestOfPrefix(events, longer, k - 1);
    }
  }

  lemma NothingStaged(d: Disk<Name, File>)
    ensures Settled(d, IsStaged) ==> Interrupted(d, IsStaged) && forall n :: n in d.names ==> !n.Staged?
  {
  }

  // ---------------------------------------------------------------- any number of interrupted publications

  /** What one recovery or publication, killed anywhere, can do to the directory. */
  ghost predicate Attempted(d: Disk<Name, File>, d': Disk<Name, File>) {
    && Interrupted(d', IsStaged)
    && (|| Published(d', IsStaged) == Published(d, IsStaged)
        || exists name, raw :: name !in Published(d, IsStaged)
             && Published(d', IsStaged) == Published(d, IsStaged)[name := Whole(raw)])
  }

  /** Over any history of publications and kills under the writer lock, no published identity
      ever changes content or disappears, and at most one staged name ever exists. */
  lemma {:induction false} IdentitiesAreImmutable(history: seq<Disk<Name, File>>, i: nat, j: nat)
    requires i <= j < |history| && Settled(history[0], IsStaged)
    requires forall k :: 0 <= k < |history| - 1 ==> Attempted(history[k], history[k + 1])
    ensures forall n :: n in Published(history[i], IsStaged) ==>
              n in Published(history[j], IsStaged)
              && Published(history[j], IsStaged)[n] == Published(history[i], IsStaged)[n]
    ensures forall a, b :: a in history[j].names && b in history[j].names && a.Staged? && b.Staged? ==> a == b
    decreases j
  {
    hide Published;
    if j > 0 {
      assert Attempted(history[j - 1], history[j - 1 + 1]);
      if i < j { IdentitiesAreImmutable(history, i, j - 1); }
    }
    OneStagedName(history[j]);
  }

  lemma OneStagedName(d: Disk<Name, File>)
    requires Interrupted(d, IsStaged)
    ensures forall a, b :: a in d.names && b in d.names && a.Staged? && b.Staged? ==> a == b
  {
  }

  datatype Outcome = Dead | Unsafe | Conflict | Ok

  class RuntimeLedger {
    const directory: Volume<Name, File>
    var retained: set<Profile>

    constructor (directory: Volume<Name, File>, retained: set<Profile>)
      ensures this.directory == directory && this.retained == retained
    {
      this.directory := directory;
      this.retained := retained;
    }

    /** `_recover_publication`: removes what an interrupted publication left behind. */
    method Recover() returns (outcome: Outcome)
      modifies directory
      ensures old(Interrupted(directory.disk, IsStaged)) ==>
                && outcome in {Dead, Ok} && (old(directory.budget) > 0 ==> outcome.Ok?)
                && Interrupted(directory.disk, IsStaged)
                && Published(directory.disk, IsStaged) == old(Published(directory.disk, IsStaged))
                && (outcome.Ok? ==> Settled(directory.disk, IsStaged))
                && directory.budget + 1 >= old(directory.budget)
      ensures old(Interrupted(directory.disk, IsStaged)) ==> Attempted(old(directory.disk), directory.disk)
      ensures old(Settled(directory.disk, IsStaged)) ==>
                outcome.Ok? && directory.disk == old(directory.disk) && directory.budget == old(directory.budget)
    {
      hide Settled, Interrupted, Published;
      var names := directory.disk.names.Keys;
      var staged := set n | n in names && n.Staged?;
      ghost var start := directory.disk;
      if Interrupted(start, IsStaged) { StagedNames(start); }
      assert Settled(start, IsStaged) ==> Interrupted(start, IsStaged) && staged == {} by { NothingStaged(start); }
      while staged != {}
        invariant staged <= names && forall n :: n in staged ==> n.Staged?
        invariant Interrupted(start, IsStaged) ==>
                    && Interrupted(directory.disk, IsStaged)
                    && Published(directory.disk, IsStaged) == Published(start, IsStaged)
                    && (staged == {} ==> Settled(directory.disk, IsStaged))
                    && (staged != {} ==> directory.disk == start && directory.budget == old(directory.budget))
                    && (staged != {} ==> staged == set n | n in start.names && n.Staged?)
                    && directory.budget + 1 >= old(directory.budget)
        invariant Settled(start, IsStaged) ==>
                    staged == {} && directory.disk == start && directory.budget == old(directory.budget)
        decreases |staged|
      {
        var name :| name in staged;
        if Interrupted(start, IsStaged) {
          StagedNames(start);
          assert staged == {name};
          SafeToRemove(start, name);
          NothingStaged(Apply(start, Unlink(name)).value);
        }
        staged := staged - {name};
        var disk := directory.disk;
        if name !in disk.names || disk.names[name] !in disk.inodes || disk.inodes[disk.names[name]].links !in {1, 2} {
          return Unsafe;
        }
        if exists other :: other in names && other !in disk.names {
          return Unsafe;  // a listed name is gone: its stat raises
        }
        var linked := set other | other in names && other != name && disk.names[other] == disk.names[name];
        assert disk == start ==>
          linked == set other | other in start.names && other != name && start.names[other] == start.names[name];
        if disk.inodes[disk.names[name]].links == 2 && |linked| != 1 {
          return Unsafe;
        }
        var answer := directory.Issue(Unlink(name));
        if answer.Killed? {
          return Dead;
        }
        if answer.Refused? {
          return Unsafe;
        }
      }
      return Ok;
    }

    /** `_immutable`: a durable new file, never a replacement.  Wherever the process is killed,
        the name is absent or complete, and no other published file has changed. */
    method Immutable(name: Name, token: nat, raw: File) returns (outcome: Outcome)
      requires !name.Staged?
      modifies directory
      ensures old(Interrupted(directory.disk, IsStaged)) ==>
                && Interrupted(directory.disk, IsStaged)
                && (|| Published(directory.disk, IsStaged) == old(Published(directory.disk, IsStaged))
                    || (&& name !in old(Published(directory.disk, IsStaged))
                        && Published(directory.disk, IsStaged)
                             == old(Published(directory.disk, IsStaged))[name := Whole(raw)]))
                && (outcome.Ok? ==>
                      && Settled(directory.disk, IsStaged)
                      && name in Published(directory.disk, IsStaged)
                      && Published(directory.disk, IsStaged)[name] == Whole(raw))
                && (outcome.Conflict? ==>
                      && Settled(directory.disk, IsStaged)
                      && Published(directory.disk, IsStaged) == old(Published(directory.disk, IsStaged))
                      && name in Published(directory.disk, IsStaged)
                      && Published(directory.disk, IsStaged)[name] != Whole(raw))
                && !outcome.Unsafe?
                && (old(directory.budget) >= 5 ==> !outcome.Dead?)
      ensures old(Interrupted(directory.disk, IsStaged)) ==> Attempted(old(directory.disk), directory.disk)
    {
      hide Settled, Staging, HalfLinked, Published, Apply;
      ghost var fine := Interrupted(directory.disk, IsStaged);
      var recovered := Recover();
      if recovered != Ok {
        return recovered;
      }
      var temporary := Staged(token);
      if fine { Created(directory.disk, IsStaged, temporary); }
      var answer := directory.Issue(Create(temporary));
      if !answer.Done? {
        return if answer.Killed? then Dead else Unsafe;
      }
      if fine { Filled(directory.disk, IsStaged, temporary, raw); }
      answer := directory.Issue(Fill(temporary, raw));
      if !answer.Done? {
        return if answer.Killed? then Dead else Unsafe;
      }
      if fine { Linked(directory.disk, IsStaged, temporary, name); Dropped(directory.disk, IsStaged, temporary); }
      answer := directory.Issue(Link(temporary, name));
      if answer.Killed? {
        return Dead;
      }
      if answer.Refused? {
        answer := directory.Issue(Unlink(temporary));
        if !answer.Done? {
          return if answer.Killed? then Dead else Unsafe;
        }
        var disk := directory.disk;
        if fine { ReadBack(disk, name); }
        if name !in disk.names || disk.names[name] !in disk.inodes || disk.inodes[disk.names[name]].links != 1 {
          return Unsafe;  // not a regular file with one link
        }
        return if disk.inodes[disk.names[name]].content == Whole(raw) then Ok else Conflict;
      }
      if fine { Finished(directory.disk, IsStaged, temporary, name); }
      answer := directory.Issue(Unlink(temporary));
      if !answer.Done? {
        return if answer.Killed? then Dead else Unsafe;
      }
      return Ok;
    }

    /** `RuntimeLedger.events`: replays the chain exactly when the directory holds one. */
    method Events() returns (events: Option<seq<Event>>)
      ensures events.Some? ==> Readable(directory.disk, retained, events.value)
      ensures forall chain :: Readable(directory.disk, retained, chain) ==> events == Some(chain)
    {
      hide ValidCandidate, Readable;
      var disk := directory.disk;
      var names := set n | n in disk.names && !n.Staged?;
      forall chain | Readable(disk, retained, chain)
        ensures |names| == |chain| <= EVENT_BOUND
      {
        NamesOfChain(disk, retained, chain);
        BoundedChain(disk, retained, chain);
      }
      if |names| > EVENT_BOUND {
        return None;
      }
      var result: seq<Event> := [];
      var previous: Option<Digest> := None;
      var sequence := 1;
      while sequence <= |names|
        invariant 1 <= sequence <= |names| + 1 && |result| == sequence - 1
        invariant previous == DigestAt(result, |result|)
        invariant forall k :: 0 < k < sequence ==>
                    && Numbered(k) in disk.names && disk.names[Numbered(k)] in disk.inodes
                    && disk.inodes[disk.names[Numbered(k)]] == Inode(Whole(FileAt(result, k)), 1)
        invariant ValidLedger(result, retained)
        invariant forall chain :: Readable(disk, retained, chain) ==> result <= chain
      {
        var name := Numbered(sequence);
        forall chain | Readable(disk, retained, chain)
          ensures name in disk.names && disk.names[name] in disk.inodes
          ensures disk.inodes[disk.names[name]] == Inode(Whole(FileAt(chain, sequence)), 1)
          ensures FileAt(chain, sequence).previous == previous
          ensures ValidCandidate(chain[sequence - 1], result, retained)
          ensures FileAt(chain, sequence).event == chain[sequence - 1]
        {
          NextFile(disk, retained, result, chain, sequence);
        }
        if name !in names || disk.names[name] !in disk.inodes || disk.inodes[disk.names[name]].links != 1 {
          return None;
        }
        var content := disk.inodes[disk.names[name]].content;
        if content.Torn? {
          return None;
        }
        var file := content.bytes;
        if file.sequence != sequence || file.previous != previous
           || file.digest != Sha(file.sequence, file.previous, file.event) {
          return None;
        }
        if !ValidCandidate(file.event, result, retained) {
          return None;
        }
        ExtendChain(result, file.event, retained);
        result := result + [file.event];
        previous := Some(file.digest);
        sequence := sequence + 1;
      }
      Assembled(disk, retained, result);
      forall chain | Readable(disk, retained, chain)
        ensures chain == result
      {
        assert result <= chain && |result| == |chain|;
      }
      return Some(result);
    }

    /** `RuntimeLedger.append`.  An accepted event extends the chain by exactly itself; a refused
        one changes nothing; a kill leaves one or the other. */
    method Append(e: Event, token: nat, ghost chain: seq<Event>) returns (accepted: bool, outcome: Outcome)
      requires Interrupted(directory.disk, IsStaged)
      requires Stores(Published(directory.disk, IsStaged), chain) && ValidLedger(chain, retained)
      modifies directory
      ensures Interrupted(directory.disk, IsStaged)
      ensures || Stores(Published(directory.disk, IsStaged), chain)
              || (Stores(Published(directory.disk, IsStaged), chain + [e]) && ValidLedger(chain + [e], retained))
      ensures accepted ==>
                && Settled(directory.disk, IsStaged)
                && Stores(Published(directory.disk, IsStaged), chain + [e]) && ValidLedger(chain + [e], retained)
      ensures accepted ==> (Readable(directory.disk, retained, chain + [e]) <==> |chain| < 100000)
      ensures accepted && |chain| == EVENT_BOUND ==> forall c :: !Readable(directory.disk, retained, c)
      ensures old(directory.budget) >= 6 ==>
                (accepted <==> |chain| <= EVENT_BOUND && ValidCandidate(e, chain, retained))
      ensures old(directory.budget) >= 6 && !accepted ==> Stores(Published(directory.disk, IsStaged), chain)
    {
      hide ValidCandidate, Settled, Published, Interrupted, ValidLedger, Stores, Readable;
      accepted := false;
      outcome := Recover();
      if outcome != Ok {
        return;
      }
      var events := Events();
      SettledReads(directory.disk, retained, chain);
      if events.None? {
        return false, Unsafe;
      }
      SettledReads(directory.disk, retained, events.value);
      SameChain(Published(directory.disk, IsStaged), events.value, chain);
      if !ValidCandidate(e, events.value, retained) {
        return false, Conflict;
      }
      StoresNext(Published(directory.disk, IsStaged), chain, e);
      ValidAppend(chain, e, retained);
      var next := |events.value| + 1;
      outcome := Immutable(Numbered(next), token, FileAt(events.value + [e], next));
      accepted := outcome.Ok?;
      if accepted {
        SettledReads(directory.disk, retained, chain + [e]);
        forall c | Readable(directory.disk, retained, c)
          ensures c == chain + [e]
        {
          SettledReads(directory.disk, retained, c);
          SameChain(Published(directory.disk, IsStaged), c, chain + [e]);
        }
      }
    }
  }

  // ---------------------------------------------------------------- the ledger at its bound

  function Digits(n: nat): string {
    if n < 10 then ["0123456789"[n]] else Digits(n / 10) + ["0123456789"[n % 10]]
  }

  lemma {:induction false} DigitsDiffer(a: nat, b: nat)
    requires Digits(a) == Digits(b)
    ensures a == b
  {
    assert forall i, j :: 0 <= i < j < 10 ==> "0123456789"[i] != "0123456789"[j];
    var x, y := Digits(a), Digits(b);
    assert x[|x| - 1] == "0123456789"[a % 10] && y[|y| - 1] == "0123456789"[b % 10];
    if a >= 10 && b >= 10 {
      assert x[..|x| - 1] == Digits(a / 10) && y[..|y| - 1] == Digits(b / 10);
      DigitsDiffer(a / 10, b / 10);
    } else {
      DigitsAreNotEmpty(a / 10);
      DigitsAreNotEmpty(b / 10);
    }
  }

  lemma DigitsAreNotEmpty(n: nat)
    ensures Digits(n) != ""
  {
  }

  /** What the n-th use of `disable_trading` records when no session was ever opened. */
  function Disabling(n: nat): Control {
    Control(Operator(Digits(n)), Vacant, None, false, "operator")
  }

  function Disablings(n: nat): seq<Event> {
    seq(n, i requires 0 <= i < n => Controlled(Disabling(i)))
  }

  lemma {:induction false} ControlsOfDisablings(n: nat)
    ensures Controls(Disablings(n)) == seq(n, i requires 0 <= i < n => Disabling(i))
  {
    if n > 0 {
      ControlsOfDisablings(n - 1);
      assert Disablings(n)[..n - 1] == Disablings(n - 1);
    }
  }

  /** There are valid ledgers of every length, and each admits one more event. */
  lemma {:induction false} EveryLength(n: nat, retained: set<Profile>)
    ensures |Disablings(n)| == n && ValidLedger(Disablings(n), retained)
    ensures ValidCandidate(Controlled(Disabling(n)), Disablings(n), retained)
  {
    hide Disabling;
    if n > 0 {
      EveryLength(n - 1, retained);
      assert Disablings(n) == Disablings(n - 1) + [Controlled(Disabling(n - 1))];
      ValidAppend(Disablings(n - 1), Controlled(Disabling(n - 1)), retained);
    }
    hide ValidLedger;
    ControlsOfDisablings(n);
    FreshDisabling(n);
  }

  lemma FreshDisabling(n: nat)
    ensures !Disabling(n).enabled && forall i :: 0 <= i < n ==> Disabling(i).action != Disabling(n).action
  {
    forall i | 0 <= i < n
      ensures Digits(i) != Digits(n)
    {
      if Digits(i) == Digits(n) { DigitsDiffer(i, n); }
    }
  }

  /** The directory of a chain that was published file by file. */
  function DirectoryOf(events: seq<Event>): Disk<Name, File> {
    Disk(map k: nat | 0 < k <= |events| :: Numbered(k) := k,
         map k: nat | 0 < k <= |events| :: k := Inode(Whole(FileAt(events, k)), 1), |events| + 1)
  }

  lemma DirectoryStores(events: seq<Event>)
    ensures Settled(DirectoryOf(events), IsStaged) && Stores(Published(DirectoryOf(events), IsStaged), events)
  {
    var d := DirectoryOf(events);
    forall n
      ensures n in d.names <==> n.Numbered? && 0 < n.sequence <= |events|
      ensures n in d.names ==> d.names[n] == n.sequence
    {
    }
  }

  /** A directory that holds exactly the bound accepts one more event, and can then no longer be read. */
  method AppendAtTheBound(retained: set<Profile>) returns (before: Option<seq<Event>>, accepted: bool, after: Option<seq<Event>>)
    ensures before.Some? && |before.value| == 100000
    ensures accepted && after.None?
  {
    hide Digits, Disabling, Disablings, DirectoryOf, Settled, Stores, Published, Readable, ValidLedger, ValidCandidate, Interrupted;
    var bound := EVENT_BOUND;
    EveryLength(bound, retained);
    var chain := Disablings(bound);
    DirectoryStores(chain);
    NothingStaged(DirectoryOf(chain));
    SettledReads(DirectoryOf(chain), retained, chain);
    var volume := new Volume(DirectoryOf(chain), 6);
    var ledger := new RuntimeLedger(volume, retained);
    before := ledger.Events();
    var outcome;
    accepted, outcome := ledger.Append(Controlled(Disabling(bound)), 0, chain);
    after := ledger.Events();
  }
}
