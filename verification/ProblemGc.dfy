/** One run of the collector on its own: the object names it recognizes, the sets it fills and what it deletes. */
module ProblemGc {
  import opened Basics
  import opened Text
  import opened Judging
  import opened PackageGC

  // ---- object names -------------------------------------------------------

  const UINT64_LIMIT := 0x1_0000_0000_0000_0000

  predicate IsHex(c: char) { IsDigit(c) || 'a' <= c <= 'f' || 'A' <= c <= 'F' }

  predicate IsHash(hash: string)
  {
    |hash| == 64 && forall i | 0 <= i < |hash| :: IsHex(hash[i])
  }

  function ObjectKey(problem: nat, hash: string): string
  {
    Join(["problems", Decimal(problem), "packages", hash + ".zip"], '/')
  }

  /** strconv.ParseUint(s, 10, 64). */
  function ParseUint(s: string): Option<nat>
  {
    if s != "" && AllDigits(s) && Value(s) < UINT64_LIMIT then Some(Value(s)) else None
  }

  /** `packageObjectProblemID`: the problem an object name belongs to. */
  function ProblemOfKey(key: string): Option<nat>
  {
    var parts := Split(key, '/');
    if |parts| != 4 || parts[0] != "problems" || parts[2] != "packages" || !HasSuffix(parts[3], ".zip") then None
    else
      var id := ParseUint(parts[1]);
      if id.None? || id.value == 0 || !IsHash(parts[3][..|parts[3]| - 4]) then None else id
  }

  /** Every name an upload writes is recognized as its problem's, and names of different archives differ. */
  lemma KeysRoundTrip(problem: nat, hash: string)
    requires 0 < problem < UINT64_LIMIT && IsHash(hash)
    ensures ProblemOfKey(ObjectKey(problem, hash)) == Some(problem)
    ensures forall p: nat, h | IsHash(h) && ObjectKey(p, h) == ObjectKey(problem, hash) :: p == problem && h == hash
  {
    SplitKey(problem, hash);
    assert (hash + ".zip")[..64] == hash;
    forall p: nat, h | IsHash(h) && ObjectKey(p, h) == ObjectKey(problem, hash) ensures p == problem && h == hash {
      SplitKey(p, h);
      assert (h + ".zip")[..64] == h;
      var a := ["problems", Decimal(p), "packages", h + ".zip"];
      var b := ["problems", Decimal(problem), "packages", hash + ".zip"];
      assert a[1] == b[1] && a[3] == b[3];
    }
  }

  lemma {:induction false} SplitKey(problem: nat, hash: string)
    requires IsHash(hash)
    ensures Split(ObjectKey(problem, hash), '/') == ["problems", Decimal(problem), "packages", hash + ".zip"]
  {
    var parts := ["problems", Decimal(problem), "packages", hash + ".zip"];
    assert forall i | 0 <= i < |hash| :: hash[i] != '/';
    assert '/' !in Decimal(problem);
    assert forall p :: p in parts ==> '/' !in p;
    SplitOfJoin(parts, '/');
  }

  /** A name of this shape: the problem's number, which fits 64 bits and is not 0, and a hash of 64 hexadecimal
      digits. */
  predicate ArchiveName(key: string, problem: nat, digits: string, hash: string)
  {
    && digits != "" && AllDigits(digits) && Value(digits) == problem && 0 < problem < 18_446_744_073_709_551_616
    && |hash| == 64
    && (forall c | c in hash :: '0' <= c <= '9' || 'a' <= c <= 'f' || 'A' <= c <= 'F')
    && key == Join(["problems", digits, "packages", hash + ".zip"], '/')
  }

  /** Exactly the names of that shape are recognized. */
  lemma RecognizedShape(key: string, problem: nat)
    ensures ProblemOfKey(key) == Some(problem) <==> exists digits, hash :: ArchiveName(key, problem, digits, hash)
  {
    if ProblemOfKey(key) == Some(problem) {
      var parts := Split(key, '/');
      var hash := parts[3][..|parts[3]| - 4];
      JoinOfSplit(key, '/');
      assert parts[3] == hash + ".zip";
      assert parts == ["problems", parts[1], "packages", hash + ".zip"];
      assert ArchiveName(key, problem, parts[1], hash);
    }
    if digits, hash :| ArchiveName(key, problem, digits, hash) {
      var parts := ["problems", digits, "packages", hash + ".zip"];
      assert forall i | 0 <= i < |hash| :: hash[i] in hash;
      assert IsHash(hash) && (hash + ".zip")[..64] == hash && HasSuffix(hash + ".zip", ".zip");
      assert '/' !in digits && '/' !in hash;
      assert forall p :: p in parts ==> '/' !in p;
      SplitOfJoin(parts, '/');
    }
  }

  // ---- one uninterrupted run ----------------------------------------------

  lemma OneMoreRow(seen: map<nat, Problem>, id: nat, row: Problem)
    requires id !in seen
    ensures KeptKeys(seen[id := row]) ==
            KeptKeys(seen) + if row.live && row.package.Package? then {Archive(id, row.package.hash)} else {}
    ensures Unreadable(seen[id := row]) == Unreadable(seen) + if row.live && row.package.Corrupt? then {id} else {}
  {
    var more := seen[id := row];
    forall k | k in KeptKeys(seen) ensures k in KeptKeys(more) {
      assert k.problem in seen && more[k.problem] == seen[k.problem];
    }
    if row.live && row.package.Package? { assert more[id] == row && Archive(id, row.package.hash) in KeptKeys(more); }
  }

  /** The first two phases: the archives the rows name, and the problems not to touch. */
  method ReadRowsAndIds(problems: map<nat, Problem>, rows: Rows) returns (keep: set<Key>, protected: set<nat>)
    ensures keep == KeptKeys(problems)
    ensures protected == Unreadable(problems) + BeingJudged(rows)
  {
    keep, protected := {}, {};
    var todo := problems.Keys;
    while todo != {}
      invariant todo <= problems.Keys
      invariant keep == KeptKeys(problems - todo)
      invariant protected == Unreadable(problems - todo)
      decreases todo
    {
      var id :| id in todo;
      var row := problems[id];
      OneMoreRow(problems - todo, id, row);
      assert (problems - todo)[id := row] == problems - (todo - {id});
      todo := todo - {id};
      if row.live && row.package.Corrupt? {
        protected := protected + {id};
      } else if row.live && row.package.Package? {
        keep := keep + {Archive(id, row.package.hash)};
      }
    }
    assert problems - todo == problems;
    protected := protected + BeingJudged(rows);
  }

  /** What a run deletes, given its notes, if the store refuses to delete the objects in `stuck`. */
  function Swept(gc: Collector, stuck: set<Key>): set<Key>
    requires gc.Listed?
  {
    set key | key in gc.listing && Doomed(gc, key) && key !in stuck
  }

  class ObjectStore {
    var objects: map<Key, int>

    constructor ()
      ensures objects == map[]
    {
      objects := map[];
    }

    method Put(key: Key, now: int)
      modifies this
      ensures objects == old(objects)[key := now]
    {
      objects := objects[key := now];
    }

    /** The last phase: objects go one by one, and a failed delete does not stop the rest. */
    method Sweep(gc: Collector, stuck: set<Key>) returns (deleted: nat)
      requires gc.Listed? && gc.listing == objects
      modifies this
      ensures objects == old(objects) - Swept(gc, stuck) && deleted == |Swept(gc, stuck)|
    {
      deleted := 0;
      var left := gc.listing.Keys;
      ghost var gone := {};
      while left != {}
        invariant left <= gc.listing.Keys
        invariant gone == Swept(gc, stuck) - left
        invariant objects == gc.listing - gone && deleted == |gone|
        decreases left
      {
        var key :| key in left;
        left := left - {key};
        if Doomed(gc, key) && key !in stuck {
          objects := objects - {key};
          deleted := deleted + 1;
          gone := gone + {key};
        }
      }
      assert gone == Swept(gc, stuck);
    }

    /** `collectProblemPackages` without interference. */
    method Collect(problems: map<nat, Problem>, rows: Rows, before: int, stuck: set<Key>) returns (deleted: nat)
      modifies this
      ensures var gc := Listed(before, KeptKeys(problems), Unreadable(problems) + BeingJudged(rows), old(objects));
              objects == old(objects) - Swept(gc, stuck) && deleted == |Swept(gc, stuck)|
    {
      var keep, protected := ReadRowsAndIds(problems, rows);
      deleted := Sweep(Listed(before, keep, protected, objects), stuck);
    }
  }
}
