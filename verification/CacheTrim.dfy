/** The judger's cache of problem packages, trimmed to a size: least recently used first, under try-locks. */
module CacheTrim {
  import opened Basics

  /** A cached version of a problem's package. */
  datatype Entry = Entry(path: string, size: nat, used: int)

  predicate Older(a: Entry, b: Entry) { a.used < b.used }

  function SizeOf(entries: seq<Entry>): nat
  {
    if entries == [] then 0 else SizeOf(entries[..|entries| - 1]) + entries[|entries| - 1].size
  }

  /** A size is the sum of the entries' sizes. */
  lemma {:induction false} SizeIsSum(entries: seq<Entry>)
    ensures SizeOf(entries) == Sum(seq(|entries|, i requires 0 <= i < |entries| => entries[i].size as int))
  {
    var sizes := seq(|entries|, i requires 0 <= i < |entries| => entries[i].size as int);
    if entries != [] {
      var init := entries[..|entries| - 1];
      SizeIsSum(init);
      assert sizes[..|sizes| - 1] == seq(|init|, i requires 0 <= i < |init| => init[i].size as int);
    }
  }

  lemma {:induction false} SizeOfJoined(a: seq<Entry>, b: seq<Entry>)
    ensures SizeOf(a + b) == SizeOf(a) + SizeOf(b)
  {
    if b == [] {
      assert a + b == a;
    } else {
      var n := |b| - 1;
      SizeOfJoined(a, b[..n]);
      assert (a + b)[..|a + b| - 1] == a + b[..n];
    }
  }

  lemma {:induction false} SizeOfMore(a: seq<Entry>, e: Entry)
    ensures SizeOf(a + [e]) == SizeOf(a) + e.size
  {}

  lemma {:induction false} SizeWithout(s: seq<Entry>, j: nat)
    requires j < |s|
    ensures SizeOf(s) == SizeOf(s[..j] + s[j + 1..]) + s[j].size
  {
    CutAt(s, j);
    SizeOfJoined(s[..j], s[j + 1..]);
    SizeOfJoined(s[..j] + [s[j]], s[j + 1..]);
    SizeOfMore(s[..j], s[j]);
  }

  lemma {:induction false} SizeIgnoresOrder(a: seq<Entry>, b: seq<Entry>)
    requires multiset(a) == multiset(b)
    ensures SizeOf(a) == SizeOf(b)
    decreases |a|
  {
    if a == [] {
      assert |multiset(b)| == 0;
    } else {
      var n := |a| - 1;
      assert a[n] in multiset(b);
      var j :| 0 <= j < |b| && b[j] == a[n];
      DropAt(a, n);
      DropAt(b, j);
      SizeIgnoresOrder(a[..n] + a[n + 1..], b[..j] + b[j + 1..]);
      SizeWithout(a, n);
      SizeWithout(b, j);
    }
  }

  /** Entries a trim must or can only leave alone: the one in use by the caller, those whose lock is held, and those
      that cannot be deleted. */
  predicate Pinned(e: Entry, keep: string, held: set<string>, stuck: set<string>)
  {
    e.path == keep || e.path in held || e.path in stuck
  }

  /** What trimming may leave of the entries found. */
  ghost predicate Trimmed(found: seq<Entry>, limit: int, keep: string, held: set<string>, stuck: set<string>,
                          evicted: seq<Entry>, left: seq<Entry>)
  {
    // every entry is evicted or left, and no pinned entry is evicted
    && multiset(evicted) + multiset(left) == multiset(found)
    && (forall e | e in evicted :: !Pinned(e, keep, held, stuck))
    // what is left fits, or cannot be trimmed further
    && (SizeOf(left) <= limit || forall e | e in left :: Pinned(e, keep, held, stuck))
    // no entry goes while an older one that could go stays
    && (forall e, f | e in evicted && f in left && !Pinned(f, keep, held, stuck) :: !Older(f, e))
    // no more goes than needed: without the last eviction it would not fit
    && (forall i, j | 0 <= i < j < |evicted| :: !Older(evicted[j], evicted[i]))
    && (evicted != [] ==> SizeOf(left) + evicted[|evicted| - 1].size > limit)
  }

  /** The eviction loop after its first `n` entries. */
  ghost predicate Evicting(entries: seq<Entry>, n: nat, limit: int, keep: string, held: set<string>, stuck: set<string>,
                           evicted: seq<Entry>, left: seq<Entry>, total: int)
  {
    && n <= |entries| && total == SizeOf(left) + SizeOf(entries[n..])
    && multiset(evicted) + multiset(left) == multiset(entries[..n])
    && (forall e | e in evicted :: !Pinned(e, keep, held, stuck))
    && (forall e | e in left :: Pinned(e, keep, held, stuck))
    && (forall i, j | 0 <= i < j < |evicted| :: !Older(evicted[j], evicted[i]))
    && (evicted != [] ==> total + evicted[|evicted| - 1].size > limit)
  }

  lemma {:induction false} EvictingStarts(entries: seq<Entry>, limit: int, keep: string, held: set<string>,
                                          stuck: set<string>)
    ensures Evicting(entries, 0, limit, keep, held, stuck, [], [], SizeOf(entries))
  {}

  /** An evicted entry came before everything the loop has not reached. */
  lemma EvictedFirst(evicted: seq<Entry>, left: seq<Entry>, entries: seq<Entry>, n: nat, e: Entry)
    requires n <= |entries| && multiset(evicted) + multiset(left) == multiset(entries[..n])
    requires SortedBy(Older, entries) && e in evicted
    ensures forall f | f in entries[n..] :: !Older(f, e)
  {
    assert e in multiset(entries[..n]);
    var i :| 0 <= i < n && entries[i] == e;
    forall f | f in entries[n..] ensures !Older(f, e) {
      var j :| 0 <= j < |entries[n..]| && entries[n..][j] == f;
      assert entries[n + j] == f;
    }
  }

  lemma NextEntry(entries: seq<Entry>, n: nat)
    requires n < |entries|
    ensures SizeOf(entries[n..]) == entries[n].size + SizeOf(entries[n + 1..])
    ensures multiset(entries[..n + 1]) == multiset(entries[..n]) + multiset{entries[n]}
    ensures entries[n] in entries[n..]
  {
    SizeWithout(entries[n..], 0);
    assert entries[n..][..0] + entries[n..][1..] == entries[n + 1..];
    assert entries[..n + 1] == entries[..n] + [entries[n]];
  }

  lemma EvictKeeps(entries: seq<Entry>, n: nat, limit: int, keep: string, held: set<string>, stuck: set<string>,
                   evicted: seq<Entry>, left: seq<Entry>, total: int)
    requires SortedBy(Older, entries) && Evicting(entries, n, limit, keep, held, stuck, evicted, left, total)
    requires n < |entries| && total > limit && !Pinned(entries[n], keep, held, stuck)
    ensures Evicting(entries, n + 1, limit, keep, held, stuck, evicted + [entries[n]], left, total - entries[n].size)
  {
    NextEntry(entries, n);
    forall e | e in evicted ensures !Older(entries[n], e) { EvictedFirst(evicted, left, entries, n, e); }
  }

  lemma LeaveKeeps(entries: seq<Entry>, n: nat, limit: int, keep: string, held: set<string>, stuck: set<string>,
                   evicted: seq<Entry>, left: seq<Entry>, total: int)
    requires Evicting(entries, n, limit, keep, held, stuck, evicted, left, total)
    requires n < |entries| && Pinned(entries[n], keep, held, stuck)
    ensures Evicting(entries, n + 1, limit, keep, held, stuck, evicted, left + [entries[n]], total)
  {
    NextEntry(entries, n);
    SizeOfJoined(left, [entries[n]]);
  }

  lemma NothingLost(entries: seq<Entry>, n: nat, evicted: seq<Entry>, left: seq<Entry>)
    requires n <= |entries| && multiset(evicted) + multiset(left) == multiset(entries[..n])
    ensures multiset(evicted) + multiset(left + entries[n..]) == multiset(entries)
  {
    assert entries == entries[..n] + entries[n..];
  }

  lemma {:induction false} EvictingEnds(found: seq<Entry>, entries: seq<Entry>, n: nat, limit: int, keep: string,
                                        held: set<string>, stuck: set<string>, evicted: seq<Entry>, left: seq<Entry>,
                                        total: int)
    requires multiset(entries) == multiset(found) && SortedBy(Older, entries)
    requires Evicting(entries, n, limit, keep, held, stuck, evicted, left, total) && (n == |entries| || total <= limit)
    ensures Trimmed(found, limit, keep, held, stuck, evicted, left + entries[n..])
    ensures total == SizeOf(left + entries[n..])
  {
    SizeOfJoined(left, entries[n..]);
    NothingLost(entries, n, evicted, left);
    forall e, f | e in evicted && f in left + entries[n..] && !Pinned(f, keep, held, stuck) ensures !Older(f, e) {
      EvictedFirst(evicted, left, entries, n, e);
      assert f !in left;
    }
    if n == |entries| { assert left + entries[n..] == left; }
  }

  method MeasureAll(found: seq<Entry>) returns (total: int)
    ensures total == SizeOf(found)
  {
    total := 0;
    for i := 0 to |found|
      invariant total == SizeOf(found[..i])
    {
      assert found[..i + 1][..i] == found[..i];
      total := total + found[i].size;
    }
    assert found[..|found|] == found;
  }

  /** The eviction loop. */
  method Evict(entries: seq<Entry>, size: int, limit: int, keep: string, held: set<string>, stuck: set<string>)
    returns (n: nat, evicted: seq<Entry>, left: seq<Entry>, total: int)
    requires SortedBy(Older, entries) && size == SizeOf(entries)
    ensures Evicting(entries, n, limit, keep, held, stuck, evicted, left, total) && (n == |entries| || total <= limit)
  {
    hide Evicting, SortedBy;
    n, evicted, left, total := 0, [], [], size;
    EvictingStarts(entries, limit, keep, held, stuck);
    while n < |entries| && total > limit
      invariant n <= |entries| && Evicting(entries, n, limit, keep, held, stuck, evicted, left, total)
    {
      var item := entries[n];
      if item.path != keep && item.path !in held && item.path !in stuck {
        EvictKeeps(entries, n, limit, keep, held, stuck, evicted, left, total);
        total := total - item.size;
        evicted := evicted + [item];
      } else {
        LeaveKeeps(entries, n, limit, keep, held, stuck, evicted, left, total);
        left := left + [item];
      }
      n := n + 1;
    }
  }

  lemma OldestGoFirst(found: seq<Entry>, limit: int, keep: string, held: set<string>, stuck: set<string>,
                      evicted: seq<Entry>, left: seq<Entry>)
    requires Trimmed(found, limit, keep, held, stuck, evicted, left)
    ensures forall i, j | 0 <= i < j < |evicted| :: evicted[i].used <= evicted[j].used
    ensures forall e, f | e in evicted && f in left && f.path != keep && f.path !in held && f.path !in stuck ::
              e.used <= f.used
    ensures forall e | e in evicted :: e.path != keep && e.path !in held && e.path !in stuck
  {
    forall e, f | e in evicted && f in left && f.path != keep && f.path !in held && f.path !in stuck
      ensures e.used <= f.used
    {
      assert !Pinned(f, keep, held, stuck) && !Older(f, e);
    }
    forall i, j | 0 <= i < j < |evicted| ensures evicted[i].used <= evicted[j].used {
      assert !Older(evicted[j], evicted[i]);
    }
  }

  /** `trimProblemCache`, on the versions its directory walk found; `trimming` says that another trim is under way. */
  method Trim(found: seq<Entry>, limit: int, trimming: bool, keep: string, held: set<string>, stuck: set<string>)
    returns (evicted: seq<Entry>, left: seq<Entry>, total: int)
    ensures limit <= 0 || trimming ==> evicted == [] && left == found
    ensures limit > 0 && !trimming ==> Trimmed(found, limit, keep, held, stuck, evicted, left) && total == SizeOf(left)
    // least recently used first, and nothing that is in use, locked or undeletable
    ensures forall i, j | 0 <= i < j < |evicted| :: evicted[i].used <= evicted[j].used
    ensures forall e, f | e in evicted && f in left && f.path != keep && f.path !in held && f.path !in stuck ::
              e.used <= f.used
    ensures forall e | e in evicted :: e.path != keep && e.path !in held && e.path !in stuck
  {
    if limit <= 0 || trimming { return [], found, 0; }
    total := MeasureAll(found);
    var entries := Sort(Older, found);
    SizeIgnoresOrder(found, entries);
    var n;
    n, evicted, left, total := Evict(entries, total, limit, keep, held, stuck);
    EvictingEnds(found, entries, n, limit, keep, held, stuck, evicted, left, total);
    OldestGoFirst(found, limit, keep, held, stuck, evicted, left + entries[n..]);
    hide Trimmed, Evicting;
    left := left + entries[n..];
  }

  // ---- the outcome is determined ------------------------------------------

  predicate Distinct(found: seq<Entry>)
  {
    NoDup(found) && forall i, j | 0 <= i < j < |found| :: found[i].used != found[j].used
  }

  lemma PiecesAreDistinct(found: seq<Entry>, evicted: seq<Entry>, left: seq<Entry>)
    requires Distinct(found) && multiset(evicted) + multiset(left) == multiset(found)
    ensures forall e | e in evicted :: e !in left && e in found
    ensures forall e | e in found :: e in evicted || e in left
    ensures forall i, j | 0 <= i < j < |evicted| :: evicted[i] != evicted[j]
    ensures forall e, f | e in found && f in found && e.used == f.used :: e == f
  {
    forall e | e in evicted ensures e !in left && e in found {
      NoDupCount(found, e);
      assert e in multiset(found);
    }
    forall e | e in found ensures e in evicted || e in left { assert e in multiset(found); }
    NoDupParts(evicted, found);
  }

  lemma NotAhead(a: seq<Entry>, b: seq<Entry>, k: nat)
    requires k < |a| && k < |b| && a[..k] == b[..k] && Older(a[k], b[k])
    requires NoDup(a) && forall i, j | 0 <= i < j < |b| :: !Older(b[j], b[i])
    ensures a[k] !in b
  {}

  /** An eviction list cannot skip what another one takes. */
  lemma NoSkipping(found: seq<Entry>, limit: int, keep: string, held: set<string>, stuck: set<string>,
                   a: seq<Entry>, leftA: seq<Entry>, b: seq<Entry>, leftB: seq<Entry>, k: nat)
    requires Distinct(found)
    requires Trimmed(found, limit, keep, held, stuck, a, leftA) && Trimmed(found, limit, keep, held, stuck, b, leftB)
    requires k < |a| && k < |b| && a[..k] == b[..k]
    ensures !Older(a[k], b[k])
  {
    PiecesAreDistinct(found, a, leftA);
    PiecesAreDistinct(found, b, leftB);
    assert a[k] in a && b[k] in b;
    if Older(a[k], b[k]) { NotAhead(a, b, k); }
  }

  lemma {:induction false} SamePrefix(found: seq<Entry>, limit: int, keep: string, held: set<string>,
                                      stuck: set<string>,
                                      a: seq<Entry>, leftA: seq<Entry>, b: seq<Entry>, leftB: seq<Entry>, k: nat)
    requires Distinct(found) && k <= |a| && k <= |b|
    requires Trimmed(found, limit, keep, held, stuck, a, leftA) && Trimmed(found, limit, keep, held, stuck, b, leftB)
    ensures a[..k] == b[..k]
  {
    if k > 0 {
      SamePrefix(found, limit, keep, held, stuck, a, leftA, b, leftB, k - 1);
      NoSkipping(found, limit, keep, held, stuck, a, leftA, b, leftB, k - 1);
      NoSkipping(found, limit, keep, held, stuck, b, leftB, a, leftA, k - 1);
      PiecesAreDistinct(found, a, leftA);
      PiecesAreDistinct(found, b, leftB);
      assert a[..k] == a[..k - 1] + [a[k - 1]] && b[..k] == b[..k - 1] + [b[k - 1]];
    }
  }

  lemma {:induction false} LeftBehind(a: seq<Entry>, leftA: seq<Entry>, b: seq<Entry>, leftB: seq<Entry>)
    requires |a| < |b| && a == b[..|a|] && multiset(a) + multiset(leftA) == multiset(b) + multiset(leftB)
    ensures b[|b| - 1] in leftA && SizeOf(leftA) >= SizeOf(leftB) + b[|b| - 1].size
  {
    var more, last := b[|a|..], b[|b| - 1];
    assert b == a + more && last == more[|more| - 1];
    assert multiset(b) == multiset(a) + multiset(more);
    Cancel(multiset(a), multiset(leftA), multiset(leftB + more));
    assert last in more && last in multiset(leftA);
    SizeIgnoresOrder(leftA, leftB + more);
    SizeOfJoined(leftB, more);
  }

  lemma NotShorter(found: seq<Entry>, limit: int, keep: string, held: set<string>, stuck: set<string>,
                   a: seq<Entry>, leftA: seq<Entry>, b: seq<Entry>, leftB: seq<Entry>)
    requires Distinct(found)
    requires Trimmed(found, limit, keep, held, stuck, a, leftA) && Trimmed(found, limit, keep, held, stuck, b, leftB)
    ensures |a| >= |b|
  {
    if |a| < |b| {
      SamePrefix(found, limit, keep, held, stuck, a, leftA, b, leftB, |a|);
      assert a[..|a|] == a;
      LeftBehind(a, leftA, b, leftB);
    }
  }

  /** Among entries used at different times what a trim evicts, and in which order, is fixed by what was found: the
      order in which the directories were walked plays no part. */
  lemma TrimIsDetermined(found: seq<Entry>, limit: int, keep: string, held: set<string>, stuck: set<string>,
                         a: seq<Entry>, leftA: seq<Entry>, b: seq<Entry>, leftB: seq<Entry>)
    requires Distinct(found)
    requires Trimmed(found, limit, keep, held, stuck, a, leftA) && Trimmed(found, limit, keep, held, stuck, b, leftB)
    ensures a == b && multiset(leftA) == multiset(leftB)
  {
    NotShorter(found, limit, keep, held, stuck, a, leftA, b, leftB);
    NotShorter(found, limit, keep, held, stuck, b, leftB, a, leftA);
    SamePrefix(found, limit, keep, held, stuck, a, leftA, b, leftB, |a|);
    assert a[..|a|] == a && b[..|b|] == b;
    Cancel(multiset(a), multiset(leftA), multiset(leftB));
  }
}
