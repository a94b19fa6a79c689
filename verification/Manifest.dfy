/** The case list of a problem package: inferred from the file names, filtered on deletion, edited in between. */
module Manifest {
  import opened Basics
  import opened Text
  import opened CaseNames

  datatype Case = Case(id: string, input: string, answer: string, score: Option<int>) {
    /** `Points`: a case without a score of its own counts 10. */
    function Points(): int { if score.None? then 10 else score.value }
  }

  // ---- files and the cases they suggest -----------------------------------

  predicate InData(path: string) { HasPrefix(path, "data/") }

  /** The stem and kind of a path, once a leading "data/" is cut off; other paths are classified whole. */
  function Classified(path: string): (string, Kind)
  {
    DataCaseStem(if InData(path) then path[5..] else path)
  }

  predicate IsFor(path: string, stem: string, kind: Kind)
  {
    kind != Neither && Classified(path) == (stem, kind)
  }

  /** The last data file of a kind for a stem: what the inference's map holds at the end. */
  function FileFor(files: seq<string>, stem: string, kind: Kind): Option<string>
  {
    if files == [] then None
    else
      var last := files[|files| - 1];
      if InData(last) && IsFor(last, stem, kind) then Some(last) else FileFor(files[..|files| - 1], stem, kind)
  }

  function ScoreIn(prior: seq<Case>, id: string): Option<int>
  {
    if prior == [] then None
    else if prior[|prior| - 1].id == id then prior[|prior| - 1].score
    else ScoreIn(prior[..|prior| - 1], id)
  }

  predicate CaseLess(a: Case, b: Case) { StemLess(a.id, b.id) }

  predicate Suggested(files: seq<string>, prior: seq<Case>, c: Case)
  {
    && FileFor(files, c.id, Input) == Some(c.input) && FileFor(files, c.id, Answer) == Some(c.answer)
    && c.score == ScoreIn(prior, c.id)
  }

  /** `cases` is what the inference makes of the files and the prior scores: each suggested case once, in order. */
  ghost predicate Inferred(files: seq<string>, prior: seq<Case>, cases: seq<Case>)
  {
    && (forall c :: c in cases <==> Suggested(files, prior, c))
    && NoDup(cases) && SortedBy(CaseLess, cases)
  }

  /** No three stems are tangled: the comparator is an order on them. */
  predicate Orderly(files: seq<string>)
  {
    forall f, g, h | f in files && g in files && h in files ::
      !Tangled(Classified(f).0, Classified(g).0, Classified(h).0)
  }

  /** In particular if every number among the stems fits an int. */
  lemma FittingNumbersAreOrderly(files: seq<string>)
    requires forall f | f in files :: AllDigits(Classified(f).0) ==> Value(Classified(f).0) <= MAX_INT
    ensures Orderly(files)
  {}

  lemma {:induction false} FileForIsFile(files: seq<string>, stem: string, kind: Kind)
    ensures FileFor(files, stem, kind).Some? ==>
              FileFor(files, stem, kind).value in files && InData(FileFor(files, stem, kind).value)
              && IsFor(FileFor(files, stem, kind).value, stem, kind)
    ensures FileFor(files, stem, kind).None? ==> forall f | f in files :: !(InData(f) && IsFor(f, stem, kind))
  {
    hide DataCaseStem;
    if files != [] {
      FileForIsFile(files[..|files| - 1], stem, kind);
      assert forall f | f in files :: f in files[..|files| - 1] || f == files[|files| - 1];
    }
  }

  lemma SuggestedHasFile(files: seq<string>, prior: seq<Case>, c: Case)
    requires Suggested(files, prior, c)
    ensures StemShape(c.id) && c.input in files && Classified(c.input).0 == c.id
  {
    FileForIsFile(files, c.id, Input);
    StemsHaveShape(if InData(c.input) then c.input[5..] else c.input);
  }

  lemma InferredOrder(files: seq<string>, prior: seq<Case>, cases: seq<Case>)
    requires Orderly(files) && forall c | c in cases :: Suggested(files, prior, c)
    ensures StrictWeakOn(CaseLess, cases) && TotalOn(CaseLess, cases)
    ensures forall c, d | c in cases && d in cases && c.id == d.id :: c == d
  {
    hide DataCaseStem;
    var stems := set c | c in cases :: c.id;
    forall c | c in cases ensures StemShape(c.id) && c.input in files && Classified(c.input).0 == c.id {
      SuggestedHasFile(files, prior, c);
    }
    forall x, y, h | x in stems && y in stems && h in stems ensures !Tangled(x, y, h) {
      var c, d, e :| c in cases && d in cases && e in cases && c.id == x && d.id == y && e.id == h;
      assert !Tangled(Classified(c.input).0, Classified(d.input).0, Classified(e.input).0);
    }
    OrderIsExact(stems);
    OrdersCases(cases, stems);
  }

  lemma OrdersCases(cases: seq<Case>, stems: set<string>)
    requires OrdersStems(stems) && forall c | c in cases :: c.id in stems
    requires forall c, d | c in cases && d in cases && c.id == d.id :: c == d
    ensures StrictWeakOn(CaseLess, cases) && TotalOn(CaseLess, cases)
  {
    forall x, y, z | x in cases && y in cases && z in cases && CaseLess(x, z) ensures CaseLess(x, y) || CaseLess(y, z) {
      if x.id != y.id && !CaseLess(x, y) { assert StemLess(y.id, x.id); }
    }
  }

  /** There is one inferred case list, whatever order the stems left the map in and however the sort works. */
  lemma InferenceIsDetermined(files: seq<string>, prior: seq<Case>, a: seq<Case>, b: seq<Case>)
    requires Orderly(files) && Inferred(files, prior, a) && Inferred(files, prior, b)
    ensures a == b
    ensures forall i, j | 0 <= i < j < |a| :: a[i].id != a[j].id
  {
    InferredOrder(files, prior, a);
    ListingsPermute(a, b);
    SortedUnique(CaseLess, a, b);
    forall i, j | 0 <= i < j < |a| ensures a[i].id != a[j].id { assert a[i] in a && a[j] in a; }
  }

  // ---- inference ----------------------------------------------------------

  ghost predicate MapsFiles(m: map<string, string>, files: seq<string>, kind: Kind)
  {
    forall stem :: (stem in m <==> FileFor(files, stem, kind).Some?)
                   && (stem in m ==> Some(m[stem]) == FileFor(files, stem, kind))
  }

  method ReadFiles(files: seq<string>) returns (inputs: map<string, string>, answers: map<string, string>)
    ensures MapsFiles(inputs, files, Input) && MapsFiles(answers, files, Answer)
  {
    hide DataCaseStem;
    inputs, answers := map[], map[];
    for i := 0 to |files|
      invariant MapsFiles(inputs, files[..i], Input) && MapsFiles(answers, files[..i], Answer)
    {
      var path := files[i];
      assert files[..i + 1][..i] == files[..i] && files[..i + 1][i] == path;
      if InData(path) {
        var (stem, kind) := DataCaseStem(path[5..]);
        if kind == Input { inputs := inputs[stem := path]; }
        if kind == Answer { answers := answers[stem := path]; }
      }
    }
    assert files[..|files|] == files;
  }

  method ReadScores(prior: seq<Case>) returns (points: map<string, Option<int>>)
    ensures forall id :: ScoreIn(prior, id) == if id in points then points[id] else None
  {
    points := map[];
    for i := 0 to |prior|
      invariant forall id :: ScoreIn(prior[..i], id) == if id in points then points[id] else None
    {
      assert prior[..i + 1][..i] == prior[..i] && prior[..i + 1][i] == prior[i];
      points := points[prior[i].id := prior[i].score];
    }
    assert prior[..|prior|] == prior;
  }

  /** `inferCases`: the stems with both files, taken from the map in any order, then sorted. */
  method InferCases(files: seq<string>, prior: seq<Case>) returns (cases: seq<Case>)
    ensures forall c :: c in cases <==> Suggested(files, prior, c)
    ensures Orderly(files) ==> Inferred(files, prior, cases)
  {
    var inputs, answers := ReadFiles(files);
    var points := ReadScores(prior);
    var result: seq<Case> := [];
    var left := inputs.Keys;
    while left != {}
      invariant left <= inputs.Keys
      invariant forall c :: c in result <==> Suggested(files, prior, c) && c.id !in left
      invariant NoDup(result)
      decreases left
    {
      var id :| id in left;
      left := left - {id};
      if id in answers {
        var item := Case(id, inputs[id], answers[id], if id in points then points[id] else None);
        assert Suggested(files, prior, item);
        result := result + [item];
      }
    }
    forall c | Suggested(files, prior, c) ensures c.id in inputs {}
    cases := Sort(CaseLess, result);
    SamePieces(cases, result);
    if Orderly(files) { InferredOrder(files, prior, result); }
  }

  lemma SamePieces<T(!new)>(a: seq<T>, b: seq<T>)
    requires multiset(a) == multiset(b) && NoDup(b)
    ensures NoDup(a) && forall x :: x in a <==> x in b
  {
    forall x ensures x in a <==> x in b { assert x in multiset(a) <==> x in multiset(b); }
    NoDupParts(a, b);
  }

  // ---- validation ---------------------------------------------------------

  /** No two data files are the same kind of file for the same case. */
  predicate Unambiguous(files: seq<string>)
  {
    forall i, j | 0 <= i < j < |files| && InData(files[i]) && InData(files[j]) && Classified(files[i]).1 != Neither ::
      Classified(files[i]) != Classified(files[j])
  }

  predicate Taken(files: seq<string>, key: (string, Kind))
  {
    exists f | f in files :: InData(f) && Classified(f) == key
  }

  lemma OneMoreFile(files: seq<string>, path: string)
    ensures Unambiguous(files + [path]) <==>
              Unambiguous(files)
              && (InData(path) && Classified(path).1 != Neither ==> !Taken(files, Classified(path)))
  {
    hide DataCaseStem;
    var more := files + [path];
    assert forall i | 0 <= i < |files| :: more[i] == files[i];
    assert more[|files|] == path;
    if InData(path) && Classified(path).1 != Neither && Taken(files, Classified(path)) {
      var f :| f in files && InData(f) && Classified(f) == Classified(path);
      var i :| 0 <= i < |files| && files[i] == f;
      assert more[i] == f;
    }
    if Unambiguous(more) {
      forall i, j | 0 <= i < j < |files| && InData(files[i]) && InData(files[j]) && Classified(files[i]).1 != Neither
        ensures Classified(files[i]) != Classified(files[j])
      {
        assert more[i] == files[i] && more[j] == files[j];
      }
    }
  }

  /** `validateCaseFiles`. */
  method ValidateCaseFiles(names: seq<string>) returns (ok: bool)
    ensures ok == Unambiguous(names)
  {
    hide DataCaseStem;
    var seen: set<(string, Kind)> := {};
    for i := 0 to |names|
      invariant forall key :: key in seen <==> key.1 != Neither && Taken(names[..i], key)
      invariant Unambiguous(names[..i])
    {
      var path := names[i];
      assert names[..i + 1] == names[..i] + [path];
      OneMoreFile(names[..i], path);
      if InData(path) {
        var key := Classified(path);
        if key.1 != Neither {
          if key in seen { return false; }
          seen := seen + {key};
        }
      }
    }
    assert names[..|names|] == names;
    return true;
  }

  // ---- deletion and score edits -------------------------------------------

  predicate AnyFor(files: seq<string>, stem: string, kind: Kind) { exists f | f in files :: IsFor(f, stem, kind) }

  ghost predicate StemsAre(stems: set<string>, files: seq<string>, kind: Kind)
  {
    forall stem :: stem in stems <==> AnyFor(files, stem, kind)
  }

  lemma StemsMore(stems: set<string>, files: seq<string>, kind: Kind, path: string, key: (string, Kind))
    requires StemsAre(stems, files, kind) && kind != Neither && key == Classified(path)
    ensures StemsAre(if key.1 == kind then stems + {key.0} else stems, files + [path], kind)
  {
    hide DataCaseStem;
    assert forall f :: f in files + [path] <==> f in files || f == path;
    assert forall stem :: IsFor(path, stem, kind) <==> key == (stem, kind);
  }

  predicate Kept(files: seq<string>, c: Case) { AnyFor(files, c.id, Input) && AnyFor(files, c.id, Answer) }

  function KeptCases(files: seq<string>, prior: seq<Case>): (r: seq<Case>)
    ensures forall c :: c in r <==> c in prior && Kept(files, c)
  {
    if prior == [] then []
    else
      var init, last := KeptCases(files, prior[..|prior| - 1]), prior[|prior| - 1];
      assert forall c :: c in prior <==> c in prior[..|prior| - 1] || c == last;
      if Kept(files, last) then init + [last] else init
  }

  method CollectStems(files: seq<string>) returns (inputs: set<string>, answers: set<string>)
    ensures StemsAre(inputs, files, Input) && StemsAre(answers, files, Answer)
  {
    hide DataCaseStem;
    inputs, answers := {}, {};
    for i := 0 to |files|
      invariant StemsAre(inputs, files[..i], Input) && StemsAre(answers, files[..i], Answer)
    {
      var key := Classified(files[i]);
      assert files[..i + 1] == files[..i] + [files[i]];
      StemsMore(inputs, files[..i], Input, files[i], key);
      StemsMore(answers, files[..i], Answer, files[i], key);
      if key.1 == Input { inputs := inputs + {key.0}; }
      if key.1 == Answer { answers := answers + {key.0}; }
    }
    assert files[..|files|] == files;
  }

  /** `packageCases`: stems are collected from all files, and the old list is filtered in place. */
  method PackageCases(files: seq<string>, prior: seq<Case>) returns (cases: seq<Case>)
    ensures cases == KeptCases(files, prior)
  {
    var inputs, answers := CollectStems(files);
    cases := [];
    for i := 0 to |prior|
      invariant cases == KeptCases(files, prior[..i])
    {
      assert prior[..i + 1][..i] == prior[..i] && prior[..i + 1][i] == prior[i];
      if prior[i].id in inputs && prior[i].id in answers { cases := cases + [prior[i]]; }
    }
    assert prior[..|prior|] == prior;
  }

  /** Some case whose data file is gone is kept because a file elsewhere in the package has a name like it. */
  predicate StandsIn(files: seq<string>, cases: seq<Case>)
  {
    exists c | c in cases ::
      Kept(files, c) && (FileFor(files, c.id, Input).None? || FileFor(files, c.id, Answer).None?)
  }

  lemma {:induction false} KeptStaysOrdered(files: seq<string>, prior: seq<Case>)
    requires NoDup(prior) && SortedBy(CaseLess, prior)
    ensures NoDup(KeptCases(files, prior)) && SortedBy(CaseLess, KeptCases(files, prior))
  {
    if prior != [] {
      var init, last := prior[..|prior| - 1], prior[|prior| - 1];
      KeptStaysOrdered(files, init);
      var kept := KeptCases(files, init);
      forall i | 0 <= i < |kept| ensures kept[i] != last && !CaseLess(last, kept[i]) {
        assert kept[i] in init;
      }
    }
  }

  /** The last data file of a kind in part of an unambiguous package is the one the whole package has. */
  lemma {:induction false} SameFile(files: seq<string>, part: seq<string>, stem: string, kind: Kind)
    requires Unambiguous(files) && (forall f | f in part :: f in files) && FileFor(part, stem, kind).Some?
    ensures FileFor(files, stem, kind) == FileFor(part, stem, kind)
  {
    hide DataCaseStem;
    FileForIsFile(part, stem, kind);
    FileForIsFile(files, stem, kind);
    var f, g := FileFor(part, stem, kind).value, FileFor(files, stem, kind).value;
    var i :| 0 <= i < |files| && files[i] == f;
    var j :| 0 <= j < |files| && files[j] == g;
  }

  /** Deleting files and filtering the old cases gives the list inferred anew from the files that remain, scores and
      order included, exactly when no other file stands in for a deleted one. */
  lemma {:induction false} DeletionIsReinference(files: seq<string>, part: seq<string>, cases: seq<Case>)
    requires Unambiguous(files) && Inferred(files, cases, cases) && forall f | f in part :: f in files
    ensures Inferred(part, cases, KeptCases(part, cases)) <==> !StandsIn(part, cases)
  {
    hide DataCaseStem;
    KeptStaysOrdered(part, cases);
    forall c | Suggested(part, cases, c) ensures c in KeptCases(part, cases) {
      SameFile(files, part, c.id, Input);
      SameFile(files, part, c.id, Answer);
      FileForIsFile(part, c.id, Input);
      FileForIsFile(part, c.id, Answer);
    }
    forall c | c in KeptCases(part, cases) && FileFor(part, c.id, Input).Some? && FileFor(part, c.id, Answer).Some?
      ensures Suggested(part, cases, c)
    {
      SameFile(files, part, c.id, Input);
      SameFile(files, part, c.id, Answer);
    }
  }

  /** If every recognized file lies under data/, nothing can stand in. */
  lemma DataOnlyNeverStandsIn(files: seq<string>, cases: seq<Case>)
    requires forall f | f in files && Classified(f).1 != Neither :: InData(f)
    ensures !StandsIn(files, cases)
  {
    hide DataCaseStem;
    forall c | c in cases && Kept(files, c)
      ensures FileFor(files, c.id, Input).Some? && FileFor(files, c.id, Answer).Some?
    {
      FileForIsFile(files, c.id, Input);
      FileForIsFile(files, c.id, Answer);
    }
  }

  /** `updateProblemCaseScore`: the first case with the id gets the score. */
  function Rescored(cases: seq<Case>, id: string, score: Option<int>): seq<Case>
  {
    if cases == [] then []
    else if cases[0].id == id then [cases[0].(score := score)] + cases[1..]
    else [cases[0]] + Rescored(cases[1..], id, score)
  }

  lemma {:induction false} RescoredAt(cases: seq<Case>, id: string, score: Option<int>)
    requires forall i, j | 0 <= i < j < |cases| :: cases[i].id != cases[j].id
    ensures |Rescored(cases, id, score)| == |cases|
    ensures forall i | 0 <= i < |cases| ::
              Rescored(cases, id, score)[i] == if cases[i].id == id then cases[i].(score := score) else cases[i]
  {
    if cases != [] && cases[0].id != id { RescoredAt(cases[1..], id, score); }
  }

  lemma {:induction false} ScoreAt(cases: seq<Case>, i: nat)
    requires i < |cases| && forall j, k | 0 <= j < k < |cases| :: cases[j].id != cases[k].id
    ensures ScoreIn(cases, cases[i].id) == cases[i].score
  {
    if i < |cases| - 1 { ScoreAt(cases[..|cases| - 1], i); }
  }

  /** Any rescoring of an inferred list is inferred with its own scores. */
  lemma SameIdsInferred(files: seq<string>, prior: seq<Case>, cases: seq<Case>, edited: seq<Case>)
    requires Orderly(files) && Inferred(files, prior, cases) && |edited| == |cases|
    requires forall i | 0 <= i < |cases| ::
      edited[i].id == cases[i].id && edited[i].input == cases[i].input && edited[i].answer == cases[i].answer
    ensures Inferred(files, edited, edited)
  {
    InferenceIsDetermined(files, prior, cases, cases);
    forall c | Suggested(files, edited, c) ensures c in edited {
      var was := c.(score := ScoreIn(prior, c.id));
      assert Suggested(files, prior, was);
      var i :| 0 <= i < |cases| && cases[i] == was;
      ScoreAt(edited, i);
      assert edited[i] == c;
    }
    forall c | c in edited ensures Suggested(files, edited, c) {
      var i :| 0 <= i < |edited| && edited[i] == c;
      ScoreAt(edited, i);
      assert Suggested(files, prior, cases[i]);
    }
    forall i, j | 0 <= i < j < |edited| ensures edited[i] != edited[j] && !CaseLess(edited[j], edited[i]) {
      assert cases[i].id != cases[j].id && !CaseLess(cases[j], cases[i]);
    }
  }
}
