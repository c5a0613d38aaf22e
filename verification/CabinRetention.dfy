/** The Cabin keeps at most three immutable publications in memory, most recent last. */
module CabinRetention {
  import opened Options
  import opened CabinReader

  /** Publications in insertion order, without the one of that identity. */
  function Without(kept: seq<Publication>, id: Bytes): seq<Publication> {
    if kept == [] then []
    else Without(kept[..|kept| - 1], id) + if kept[|kept| - 1].id == id then [] else [kept[|kept| - 1]]
  }

  function Last(kept: seq<Publication>, k: nat): seq<Publication> {
    if |kept| <= k then kept else kept[|kept| - k..]
  }

  /** Inserting or refreshing one publication, and evicting the oldest beyond the bound. */
  function Remember(kept: seq<Publication>, p: Publication): seq<Publication> {
    Last(Without(kept, p.id) + [p], RETAIN_PUBLICATIONS)
  }

  /** What is held after a sequence of captures. */
  function Retention(history: seq<Publication>): seq<Publication> {
    if history == [] then [] else Remember(Retention(history[..|history| - 1]), history[|history| - 1])
  }

  /** The last k distinct publications of a history, by their latest capture. */
  function Recent(history: seq<Publication>, k: nat): seq<Publication>
    decreases |history|
  {
    if history == [] || k == 0 then []
    else
      var n := |history| - 1;
      WithoutShrinks(history[..n], history[n].id);
      Recent(Without(history[..n], history[n].id), k - 1) + [history[n]]
  }

  lemma {:induction false} WithoutShrinks(kept: seq<Publication>, id: Bytes)
    ensures |Without(kept, id)| <= |kept|
    ensures forall p :: p in Without(kept, id) <==> p in kept && p.id != id
  {
    if kept != [] {
      WithoutShrinks(kept[..|kept| - 1], id);
      assert kept == kept[..|kept| - 1] + [kept[|kept| - 1]];
    }
  }

  lemma WithoutAppend(kept: seq<Publication>, p: Publication, id: Bytes)
    ensures Without(kept + [p], id) == Without(kept, id) + if p.id == id then [] else [p]
  {
    assert (kept + [p])[..|kept|] == kept;
  }

  lemma {:induction false} WithoutAbsent(kept: seq<Publication>, id: Bytes)
    requires forall p :: p in kept ==> p.id != id
    ensures Without(kept, id) == kept
  {
    if kept != [] {
      WithoutAbsent(kept[..|kept| - 1], id);
      assert kept == kept[..|kept| - 1] + [kept[|kept| - 1]];
    }
  }

  lemma {:induction false} WithoutCommutes(kept: seq<Publication>, a: Bytes, b: Bytes)
    ensures Without(Without(kept, a), b) == Without(Without(kept, b), a)
  {
    if kept != [] {
      var n := |kept| - 1;
      WithoutCommutes(kept[..n], a, b);
      var p := kept[n];
      WithoutAppend(Without(kept[..n], a), p, b);
      WithoutAppend(Without(kept[..n], b), p, a);
      assert Without(kept[..n], a) + [] == Without(kept[..n], a) && Without(kept[..n], b) + [] == Without(kept[..n], b);
    }
  }

  lemma {:induction false} RecentAre(history: seq<Publication>, k: nat)
    ensures |Recent(history, k)| <= k
    ensures forall p :: p in Recent(history, k) ==> p in history
    decreases |history|
  {
    hide Without;
    if history != [] && k > 0 {
      var n := |history| - 1;
      WithoutShrinks(history[..n], history[n].id);
      RecentAre(Without(history[..n], history[n].id), k - 1);
    }
  }

  lemma RecentAppend(rest: seq<Publication>, q: Publication, k: nat)
    requires k > 0
    ensures Recent(rest + [q], k) == Recent(Without(rest, q.id), k - 1) + [q]
  {
    assert (rest + [q])[..|rest|] == rest;
  }

  lemma LastShort(kept: seq<Publication>, k: nat)
    ensures |kept| <= k ==> Last(kept, k) == kept
    ensures |Last(kept, 0)| == 0
  {
  }

  /** Removing an identity from a history, or from its recent publications, is the same. */
  lemma {:induction false} RecentWithout(history: seq<Publication>, k: nat, id: Bytes)
    ensures Recent(Without(history, id), k) == Last(Without(Recent(history, k + 1), id), k)
    decreases |history|
  {
    hide Without, Last, Recent;
    if k == 0 {
      RecentAre(Without(history, id), 0);
      LastShort(Without(Recent(history, 1), id), 0);
    } else if history == [] {
      NothingRecent(id, k);
    } else {
      var n := |history| - 1;
      var rest, q := history[..n], history[n];
      assert history == rest + [q];
      var shorter := Without(rest, q.id);
      WithoutShrinks(rest, q.id);
      RecentAppend(rest, q, k + 1);
      WithoutAppend(Recent(shorter, k), q, id);
      WithoutAppend(rest, q, id);
      if q.id == id {
        RecentAre(shorter, k);
        WithoutAbsent(Recent(shorter, k), id);
        LastShort(Recent(shorter, k), k);
        assert shorter + [] == shorter && Recent(shorter, k) + [] == Recent(shorter, k);
      } else {
        RecentWithout(shorter, k - 1, id);
        WithoutCommutes(rest, id, q.id);
        RecentAppend(Without(rest, id), q, k);
        LastAppend(Without(Recent(shorter, k), id), q, k);
      }
    }
  }

  lemma NothingRecent(id: Bytes, k: nat)
    ensures Without([], id) == [] && Recent([], k) == Recent([], k + 1) == [] && Last([], k) == []
  {
  }

  lemma LastAppend(kept: seq<Publication>, p: Publication, k: nat)
    requires k > 0
    ensures Last(kept + [p], k) == Last(kept, k - 1) + [p]
  {
  }

  /** The insertion-ordered dictionary with eviction holds exactly the last three distinct
      publications, in the order of their latest capture. */
  lemma {:induction false} HoldsLastThree(history: seq<Publication>)
    ensures Retention(history) == Recent(history, 3) && |Retention(history)| <= 3
  {
    RecentAre(history, RETAIN_PUBLICATIONS);
    if history != [] {
      var n := |history| - 1;
      HoldsLastThree(history[..n]);
      RecentWithout(history[..n], RETAIN_PUBLICATIONS - 1, history[n].id);
      LastAppend(Without(Retention(history[..n]), history[n].id), history[n], RETAIN_PUBLICATIONS);
    }
  }

  class Cabin {
    var publications: seq<Publication>
    ghost var history: seq<Publication>

    ghost predicate Valid()
      reads this
    {
      publications == Retention(history)
    }

    constructor ()
      ensures Valid() && history == []
    {
      publications, history := [], [];
    }

    /** The insertion in `CabinReader.current`: refuses a known identity with other bytes. */
    method Remember(p: Publication) returns (ready: bool)
      requires Valid()
      modifies this
      ensures Valid()
      ensures ready <==> forall q :: q in old(publications) && q.id == p.id ==> q.files == p.files
      ensures history == if ready then old(history) + [p] else old(history)
      ensures publications == Recent(history, RETAIN_PUBLICATIONS)
    {
      hide Recent;
      HoldsLastThree(history);
      if exists q :: q in publications && q.id == p.id && q.files != p.files {
        return false;
      }
      var kept := Refresh(p);
      kept := Evict(kept);
      assert (history + [p])[..|history|] == history;
      publications := kept;
      history := history + [p];
      HoldsLastThree(history);
      return true;
    }

    /** Moves one identity to the end. */
    method Refresh(p: Publication) returns (kept: seq<Publication>)
      ensures kept == Without(publications, p.id) + [p]
    {
      kept := [];
      for i := 0 to |publications|
        invariant kept == Without(publications[..i], p.id)
      {
        assert publications[..i + 1][..i] == publications[..i];
        if publications[i].id != p.id {
          kept := kept + [publications[i]];
        }
      }
      assert publications[..|publications|] == publications;
      kept := kept + [p];
    }

    /** Drops the oldest publications beyond the bound. */
    method Evict(all: seq<Publication>) returns (kept: seq<Publication>)
      ensures kept == Last(all, RETAIN_PUBLICATIONS)
    {
      kept := all;
      while |kept| > RETAIN_PUBLICATIONS
        invariant |kept| >= Min(|all|, RETAIN_PUBLICATIONS) && |kept| <= |all| && kept == all[|all| - |kept|..]
      {
        kept := kept[1..];
      }
    }

    /** `CabinReader.artifact`: reads only what is still held. */
    method Artifact(id: Bytes, path: Path) returns (bytes: Option<Bytes>)
      requires Valid()
      ensures bytes.Some? <==> exists p :: p in publications && p.id == id && path in p.files
      ensures bytes.Some? ==> exists p :: p in publications && p.id == id && path in p.files && bytes.value == p.files[path]
    {
      for i := 0 to |publications|
        invariant forall j :: 0 <= j < i ==> publications[j].id != id
      {
        if publications[i].id == id {
          HeldOnce(history);
          return Look(publications[i].files, path);
        }
      }
      return None;
    }
  }

  /** An identity is held at most once. */
  lemma HeldOnce(history: seq<Publication>)
    ensures forall i, j :: 0 <= i < j < |Retention(history)| ==> Retention(history)[i].id != Retention(history)[j].id
  {
    HoldsLastThree(history);
    RecentDistinct(history, RETAIN_PUBLICATIONS);
  }

  lemma {:induction false} RecentDistinct(history: seq<Publication>, k: nat)
    ensures forall i, j :: 0 <= i < j < |Recent(history, k)| ==> Recent(history, k)[i].id != Recent(history, k)[j].id
    decreases |history|
  {
    hide Without;
    if history != [] && k > 0 {
      var n := |history| - 1;
      var shorter := Without(history[..n], history[n].id);
      WithoutShrinks(history[..n], history[n].id);
      RecentDistinct(shorter, k - 1);
      RecentAre(shorter, k - 1);
      var recent := Recent(shorter, k - 1);
      assert forall i :: 0 <= i < |recent| ==> recent[i] in shorter;
    }
  }
}
