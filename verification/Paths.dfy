/** Paths inside a problem package: what uploads let in and what judgers accept. */
module Paths {
  import opened Basics
  import opened CaseNames
  import opened Text

  // ---- the libraries' path functions --------------------------------------

  /** The segments left when empty ones, "." and ".." are worked off from left to right. Nothing lies above the root;
      a relative path keeps the ".." that lead out of it. */
  function Resolve(parts: seq<string>, rooted: bool): seq<string>
  {
    if parts == [] then []
    else
      var init, last := Resolve(parts[..|parts| - 1], rooted), parts[|parts| - 1];
      if last == "" || last == "." then init
      else if last != ".." then init + [last]
      else if init != [] && init[|init| - 1] != ".." then init[..|init| - 1]
      else if rooted then init
      else init + [last]
  }

  /** path.Clean, and filepath.Clean on Unix. */
  function Clean(s: string): string
  {
    var parts := Split(s, '/');
    if s == "" then "."
    else if s[0] == '/' then "/" + Join(Resolve(parts, true), '/')
    else if Resolve(parts, false) == [] then "."
    else Join(Resolve(parts, false), '/')
  }

  /** filepath.IsLocal on Unix. */
  predicate IsLocal(s: string)
  {
    var parts := Split(s, '/');
    var p := if "." in parts || ".." in parts then Clean(s) else s;
    s != "" && s[0] != '/' && p != ".." && !HasPrefix(p, "../")
  }

  function Trim(s: string): string { TrimEnd(TrimLeft(s)) }

  /** storage.CleanKey. */
  function CleanKey(raw: string): Option<string>
  {
    var normalized := Trim(Slashed(raw));
    if ".." in Split(normalized, '/') then None
    else
      var key := Clean("/" + normalized)[1..];
      if key == "" || key == "." || HasPrefix(key, "../") then None else Some(key)
  }

  // ---- the two checks -----------------------------------------------------

  predicate InSections(name: string) { HasPrefix(name, "data/") || HasPrefix(name, "judge/") }

  /** `packageFiles` lets the path into a package. */
  predicate UploadPath(name: string) { InSections(name) && CleanKey(name) == Some(name) }

  const MAX_PATH_BYTES := 1024

  /** `validateTaskCasePaths` accepts the path, if it is not too long. */
  predicate JudgerPath(name: string)
  {
    IsLocal(name) && Clean(name) == name && '\\' !in name && InSections(name)
  }

  predicate TaskPath(name: string) { |name| <= MAX_PATH_BYTES && JudgerPath(name) }

  // ---- both mean plain segments -------------------------------------------

  predicate Plain(parts: seq<string>) { forall p | p in parts :: p != "" && p != "." && p != ".." }

  lemma {:induction false} PlainResolves(parts: seq<string>, rooted: bool)
    requires Plain(parts)
    ensures Resolve(parts, rooted) == parts
  {
    if parts != [] {
      var init, last := parts[..|parts| - 1], parts[|parts| - 1];
      assert parts == init + [last] && last in parts;
      forall p | p in init ensures p in parts {}
      PlainResolves(init, rooted);
    }
  }

  lemma {:induction false} ResolvedParts(parts: seq<string>, rooted: bool)
    ensures forall p | p in Resolve(parts, rooted) :: p in parts && p != "" && p != "."
  {
    if parts != [] {
      var init, last := parts[..|parts| - 1], parts[|parts| - 1];
      var before := Resolve(init, rooted);
      ResolvedParts(init, rooted);
      assert parts == init + [last] && last in parts;
      forall p | p in Resolve(parts, rooted) ensures p in parts && p != "" && p != "." {
        assert p in before || p == last;
        assert p in init ==> p in parts;
      }
    }
  }

  lemma {:induction false} DotsComeFirst(parts: seq<string>, i: nat, j: nat)
    requires i < j < |Resolve(parts, false)| && Resolve(parts, false)[j] == ".."
    ensures Resolve(parts, false)[i] == ".."
  {
    var before := Resolve(parts[..|parts| - 1], false);
    if j < |before| {
      DotsComeFirst(parts[..|parts| - 1], i, j);
    } else if i < |before| - 1 {
      DotsComeFirst(parts[..|parts| - 1], i, |before| - 1);
    }
  }

  /** Nothing lies above the root. */
  lemma {:induction false} RootHasNoDots(parts: seq<string>)
    ensures ".." !in Resolve(parts, true)
  {
    if parts != [] { RootHasNoDots(parts[..|parts| - 1]); }
  }

  lemma {:induction false} RootedResolves(parts: seq<string>)
    ensures Resolve([""] + parts, true) == Resolve(parts, true)
  {
    var all := [""] + parts;
    if parts == [] {
      assert all[..0] == [];
    } else {
      assert all[..|all| - 1] == [""] + parts[..|parts| - 1];
      RootedResolves(parts[..|parts| - 1]);
    }
  }

  // ---- resolving makes nothing longer -------------------------------------

  function Width(parts: seq<string>): nat
  {
    if parts == [] then 0 else |parts[0]| + 1 + Width(parts[1..])
  }

  lemma {:induction false} WidthOfMore(parts: seq<string>, p: string)
    ensures Width(parts + [p]) == Width(parts) + |p| + 1
  {
    if parts == [] {
      assert [] + [p] == [p];
    } else {
      assert (parts + [p])[1..] == parts[1..] + [p];
      WidthOfMore(parts[1..], p);
    }
  }

  lemma {:induction false} JoinWidth(parts: seq<string>, sep: char)
    requires parts != []
    ensures |Join(parts, sep)| == Width(parts) - 1
  {
    if |parts| > 1 { JoinWidth(parts[1..], sep); }
  }

  lemma {:induction false} ResolvedWidth(parts: seq<string>, rooted: bool)
    ensures Width(Resolve(parts, rooted)) <= Width(parts)
  {
    if parts != [] {
      var init, last := parts[..|parts| - 1], parts[|parts| - 1];
      var before := Resolve(init, rooted);
      ResolvedWidth(init, rooted);
      assert parts == init + [last];
      WidthOfMore(init, last);
      WidthOfMore(before, last);
      if before != [] {
        assert before == before[..|before| - 1] + [before[|before| - 1]];
        WidthOfMore(before[..|before| - 1], before[|before| - 1]);
      }
    }
  }

  lemma {:induction false} TrimEndShortens(s: string)
    ensures |TrimEnd(s)| <= |s| && (|TrimEnd(s)| == |s| ==> TrimEnd(s) == s)
    ensures forall c | c in TrimEnd(s) :: c in s
  {
    if s != "" { TrimEndShortens(s[..|s| - 1]); }
  }

  lemma {:induction false} TrimLeftShortens(s: string)
    ensures |TrimLeft(s)| <= |s| && (|TrimLeft(s)| == |s| ==> TrimLeft(s) == s)
    ensures forall c | c in TrimLeft(s) :: c in s
  {
    if s != "" { TrimLeftShortens(s[1..]); }
  }

  lemma TrimShortens(s: string)
    ensures |Trim(s)| <= |s| && (|Trim(s)| == |s| ==> Trim(s) == s)
    ensures forall c | c in Trim(s) :: c in s
  {
    TrimLeftShortens(s);
    TrimEndShortens(TrimLeft(s));
  }

  // ---- what a clean path is -----------------------------------------------

  lemma {:induction false} CleanIsPlain(s: string)
    requires IsLocal(s) && Clean(s) == s && s != "."
    ensures Plain(Split(s, '/'))
  {
    var r := Resolve(Split(s, '/'), false);
    ResolvedParts(Split(s, '/'), false);
    SplitOfJoin(r, '/');
    if ".." in r {
      var j :| 0 <= j < |r| && r[j] == "..";
      if j > 0 { DotsComeFirst(Split(s, '/'), 0, j); }
    }
  }

  /** A path is local exactly if it is relative and, worked off, does not lead out. */
  lemma {:induction false} LocalMeans(s: string)
    ensures IsLocal(s) <==> s != "" && s[0] != '/' && ".." !in Resolve(Split(s, '/'), false)
  {
    var parts := Split(s, '/');
    ResolvedParts(parts, false);
    if s != "" && s[0] != '/' {
      if "." in parts || ".." in parts { CleanLeadsOut(s); } else if HasPrefix(s, "../") { DotsThenMore(s); }
      if s == ".." { SplitFirst("..", "", '/'); }
    }
  }

  lemma {:induction false} CleanLeadsOut(s: string)
    requires s != "" && s[0] != '/'
    ensures ".." in Resolve(Split(s, '/'), false) <==> Clean(s) == ".." || HasPrefix(Clean(s), "../")
  {
    var r := Resolve(Split(s, '/'), false);
    ResolvedParts(Split(s, '/'), false);
    if ".." in r {
      var j :| 0 <= j < |r| && r[j] == "..";
      if j > 0 { DotsComeFirst(Split(s, '/'), 0, j); }
      assert r[0] == "..";
    } else if r != [] {
      SplitOfJoin(r, '/');
      SplitFirst("..", "", '/');
      if HasPrefix(Clean(s), "../") { DotsThenMore(Clean(s)); }
    }
  }

  lemma {:induction false} PlainIsClean(s: string)
    requires Plain(Split(s, '/'))
    ensures IsLocal(s) && Clean(s) == s && s != "."
  {
    PlainResolves(Split(s, '/'), false);
    JoinOfSplit(s, '/');
    NotDots(s);
  }

  lemma {:induction false} DotsThenMore(s: string)
    requires HasPrefix(s, "../")
    ensures ".." in Split(s, '/')
  {
    assert s == ".." + ['/'] + s[3..];
    SplitFirst("..", s[3..], '/');
    assert ([".."] + Split(s[3..], '/'))[0] == "..";
  }

  lemma {:induction false} NotDots(s: string)
    requires Plain(Split(s, '/'))
    ensures s != "" && s[0] != '/' && s != "." && s != ".." && !HasPrefix(s, "../")
  {
    var parts := Split(s, '/');
    assert parts[0] in parts;
    SplitFirst(".", "", '/');
    SplitFirst("..", "", '/');
    if HasPrefix(s, "../") { DotsThenMore(s); }
  }

  /** The key `CleanKey` makes of a text without "..". */
  lemma {:induction false} RootedClean(n: string)
    ensures Clean("/" + n)[1..] == Join(Resolve(Split(n, '/'), true), '/')
  {
    assert ("/" + n)[1..] == n && Split("/" + n, '/') == [""] + Split(n, '/');
    RootedResolves(Split(n, '/'));
  }

  lemma SlashedIsFree(s: string)
    ensures '\\' !in Slashed(s) && ('\\' !in s ==> Slashed(s) == s)
  {}

  lemma {:induction false} KeyHasNoBackslash(n: string)
    requires '\\' !in n
    ensures '\\' !in Join(Resolve(Split(n, '/'), true), '/')
  {
    var r := Resolve(Split(n, '/'), true);
    if '\\' in Join(r, '/') {
      JoinChars(r, '/', '\\');
      var p :| p in r && '\\' in p;
      ResolvedParts(Split(n, '/'), true);
      PieceChars(n, '/', p, '\\');
    }
  }

  lemma {:induction false} KeyIsNoLonger(n: string)
    ensures |Join(Resolve(Split(n, '/'), true), '/')| <= |n|
  {
    var parts := Split(n, '/');
    ResolvedWidth(parts, true);
    JoinOfSplit(n, '/');
    JoinWidth(parts, '/');
    if Resolve(parts, true) != [] { JoinWidth(Resolve(parts, true), '/'); }
  }

  lemma {:induction false} KeyIsPlain(s: string)
    requires CleanKey(s) == Some(s)
    ensures Plain(Split(s, '/')) && '\\' !in s && Trim(s) == s
  {
    var n := Trim(Slashed(s));
    RootedClean(n);
    SlashedIsFree(s);
    TrimShortens(Slashed(s));
    KeyHasNoBackslash(n);
    KeyIsNoLonger(n);
    var r := Resolve(Split(n, '/'), true);
    ResolvedParts(Split(n, '/'), true);
    SplitOfJoin(r, '/');
  }

  lemma {:induction false} PlainIsKey(s: string)
    requires Plain(Split(s, '/')) && '\\' !in s && Trim(s) == s
    ensures CleanKey(s) == Some(s)
  {
    SlashedIsFree(s);
    RootedClean(s);
    PlainResolves(Split(s, '/'), true);
    JoinOfSplit(s, '/');
    NotDots(s);
  }

  lemma TrimmedEnd(s: string)
    requires s != "" && !Space(s[0])
    ensures Trim(s) == s <==> !Space(s[|s| - 1])
  {
    TrimEndShortens(s[..|s| - 1]);
  }

  /** Uploads let in exactly the paths that pass the judger's rules and do not end in white space. */
  lemma UploadsPassJudgers(name: string)
    ensures UploadPath(name) <==> JudgerPath(name) && !Space(name[|name| - 1])
  {
    if InSections(name) {
      TrimmedEnd(name);
      if UploadPath(name) {
        KeyIsPlain(name);
        PlainIsClean(name);
      }
      if JudgerPath(name) {
        CleanIsPlain(name);
        if Trim(name) == name { PlainIsKey(name); }
      }
    }
  }
}
