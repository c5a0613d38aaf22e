/** A small file system: a directory tree is a map from names to inodes, an inode holds
    its content and its link count.  A process may be killed between any two system calls,
    so a file is torn until its whole payload has been written and flushed. */
module FileSystem {
  import opened Options

  datatype Content<B> = Torn | Whole(bytes: B)

  datatype Inode<B> = Inode(content: Content<B>, links: nat)

  /** Inode numbers from `next` on have never been used. */
  datatype Disk<N(==), B> = Disk(names: map<N, nat>, inodes: map<nat, Inode<B>>, next: nat)

  datatype Call<N, B> =
    | Create(name: N)              // open with O_CREAT | O_EXCL
    | Fill(name: N, bytes: B)      // write everything, fsync
    | Link(source: N, target: N)   // never replaces an existing name
    | Unlink(name: N)

  /** The effect of one system call, or None when the kernel refuses it. */
  function Apply<N(==), B>(d: Disk<N, B>, call: Call<N, B>): Option<Disk<N, B>> {
    match call
    case Create(n) =>
      if n in d.names then None
      else Some(Disk(d.names[n := d.next], d.inodes[d.next := Inode(Torn, 1)], d.next + 1))
    case Fill(n, bytes) =>
      if n !in d.names || d.names[n] !in d.inodes then None
      else
        var i := d.names[n];
        Some(d.(inodes := d.inodes[i := d.inodes[i].(content := Whole(bytes))]))
    case Link(source, target) =>
      if source !in d.names || d.names[source] !in d.inodes || target in d.names then None
      else
        var i := d.names[source];
        Some(d.(names := d.names[target := i], inodes := d.inodes[i := d.inodes[i].(links := d.inodes[i].links + 1)]))
    case Unlink(n) =>
      if n !in d.names || d.names[n] !in d.inodes then None
      else
        var i := d.names[n];
        var left := d.inodes[i].links;
        Some(d.(names := d.names - {n},
                inodes := if left <= 1 then d.inodes - {i} else d.inodes[i := d.inodes[i].(links := left - 1)]))
  }

  // ---------------------------------------------------------------- shapes of a disk

  ghost predicate WellFormed<N(!new), B>(d: Disk<N, B>) {
    forall n :: n in d.names ==> d.names[n] in d.inodes && d.names[n] < d.next
  }

  /** `n` is the one name of its inode. */
  ghost predicate Sole<N(!new), B>(d: Disk<N, B>, n: N) {
    && n in d.names && d.names[n] in d.inodes && d.inodes[d.names[n]].links == 1
    && forall m :: m in d.names && m != n ==> d.names[m] != d.names[n]
  }

  /** `n` and `m` are exactly the two names of one inode. */
  ghost predicate Twin<N(!new), B>(d: Disk<N, B>, n: N, m: N) {
    && n in d.names && m in d.names && n != m && d.names[n] == d.names[m]
    && d.names[n] in d.inodes && d.inodes[d.names[n]].links == 2
    && forall k :: k in d.names && k != n && k != m ==> d.names[k] != d.names[n]
  }

  /** No staged name is left and every file has one link. */
  ghost predicate Settled<N(!new), B>(d: Disk<N, B>, staged: N -> bool) {
    WellFormed(d) && forall n :: n in d.names ==> !staged(n) && Sole(d, n)
  }

  /** `t` is staged, nothing else is, and it has not been linked yet. */
  ghost predicate Staging<N(!new), B>(d: Disk<N, B>, staged: N -> bool, t: N) {
    && WellFormed(d) && t in d.names && staged(t)
    && (forall n :: n in d.names ==> Sole(d, n))
    && (forall n :: n in d.names && n != t ==> !staged(n))
  }

  /** `t` is staged, nothing else is, and it has been linked as `n` but not yet removed. */
  ghost predicate HalfLinked<N(!new), B>(d: Disk<N, B>, staged: N -> bool, t: N, n: N) {
    && WellFormed(d) && staged(t) && !staged(n) && Twin(d, t, n)
    && (forall m :: m in d.names && m != t && m != n ==> !staged(m) && Sole(d, m))
  }

  /** Every shape a kill inside one publication can leave. */
  ghost predicate Interrupted<N(!new), B>(d: Disk<N, B>, staged: N -> bool) {
    || Settled(d, staged)
    || (exists t :: Staging(d, staged, t))
    || (exists t, n :: HalfLinked(d, staged, t, n))
  }

  /** The published files: everything except staged names. */
  function Published<N, B>(d: Disk<N, B>, staged: N -> bool): map<N, Content<B>> {
    map n | n in d.names && d.names[n] in d.inodes && !staged(n) :: d.inodes[d.names[n]].content
  }

  // ---------------------------------------------------------------- the four calls of a publication

  lemma Created<N(!new), B>(d: Disk<N, B>, staged: N -> bool, t: N)
    requires Settled(d, staged) && staged(t)
    ensures Apply(d, Create(t)).Some?
    ensures Staging(Apply(d, Create(t)).value, staged, t)
    ensures Published(Apply(d, Create(t)).value, staged) == Published(d, staged)
  {
  }

  lemma Filled<N(!new), B>(d: Disk<N, B>, staged: N -> bool, t: N, bytes: B)
    requires Staging(d, staged, t)
    ensures Apply(d, Fill(t, bytes)).Some?
    ensures var d' := Apply(d, Fill(t, bytes)).value;
      && Staging(d', staged, t) && d'.inodes[d'.names[t]].content == Whole(bytes)
      && Published(d', staged) == Published(d, staged)
  {
  }

  lemma Linked<N(!new), B>(d: Disk<N, B>, staged: N -> bool, t: N, n: N)
    requires Staging(d, staged, t) && !staged(n)
    ensures Apply(d, Link(t, n)).Some? <==> n !in Published(d, staged)
    ensures Apply(d, Link(t, n)).Some? ==>
              var d' := Apply(d, Link(t, n)).value;
              && HalfLinked(d', staged, t, n)
              && Published(d', staged) == Published(d, staged)[n := d.inodes[d.names[t]].content]
  {
  }

  lemma Dropped<N(!new), B>(d: Disk<N, B>, staged: N -> bool, t: N)
    requires Staging(d, staged, t)
    ensures Apply(d, Unlink(t)).Some?
    ensures Settled(Apply(d, Unlink(t)).value, staged)
    ensures Published(Apply(d, Unlink(t)).value, staged) == Published(d, staged)
  {
  }

  lemma Finished<N(!new), B>(d: Disk<N, B>, staged: N -> bool, t: N, n: N)
    requires HalfLinked(d, staged, t, n)
    ensures Apply(d, Unlink(t)).Some?
    ensures Settled(Apply(d, Unlink(t)).value, staged)
    ensures Published(Apply(d, Unlink(t)).value, staged) == Published(d, staged)
  {
  }

  // ---------------------------------------------------------------- a volume whose user may be killed

  datatype Answer = Killed | Refused | Done

  /** A mounted disk, and the number of system calls the running process has left to live. */
  class Volume<N(==), B> {
    var disk: Disk<N, B>
    var budget: nat

    constructor (disk: Disk<N, B>, budget: nat)
      ensures this.disk == disk && this.budget == budget
    {
      this.disk := disk;
      this.budget := budget;
    }

    method Issue(call: Call<N, B>) returns (answer: Answer)
      modifies this
      ensures old(budget) == 0 ==> answer.Killed? && budget == 0 && disk == old(disk)
      ensures old(budget) > 0 ==> budget == old(budget) - 1 && !answer.Killed?
      ensures answer.Done? ==> Apply(old(disk), call) == Some(disk)
      ensures answer.Refused? ==> Apply(old(disk), call).None? && disk == old(disk)
    {
      if budget == 0 {
        return Killed;
      }
      budget := budget - 1;
      var after := Apply(disk, call);
      if after.None? {
        return Refused;
      }
      disk := after.value;
      return Done;
    }
  }
}
