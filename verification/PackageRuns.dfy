/** The life of a problem package: uploads, deletions and score edits in a row, and what judgers then accept. */
module PackageRuns {
  import opened Basics
  import opened Text
  import opened CaseNames
  import opened Manifest
  import opened Paths

  // ---- runs of edits ------------------------------------------------------

  datatype Package = Package(files: seq<string>, cases: seq<Case>)

  datatype Edit = Upload(files: seq<string>) | Delete(name: string) | SetScore(id: string, score: Option<int>)

  /** The files left by `deleteProblemPackageFiles`: one file goes, or a whole section. */
  function Remaining(files: seq<string>, name: string): (r: seq<string>)
    ensures forall f :: f in r <==>
              f in files && !(f == name || (name in {"data", "judge"} && HasPrefix(f, name + "/")))
  {
    if files == [] then []
    else
      var init, last := Remaining(files[..|files| - 1], name), files[|files| - 1];
      assert forall f :: f in files <==> f in files[..|files| - 1] || f == last;
      if last == name || (name in {"data", "judge"} && HasPrefix(last, name + "/")) then init else init + [last]
  }

  const MAX_PACKAGE_ENTRIES := 10_000

  /** One committed edit. A package is rebuilt by `Build`, which validates and infers; the others edit the list. */
  ghost predicate EditTo(p: Package, edit: Edit, q: Package)
  {
    match edit
    case Upload(files) =>
      && Unambiguous(files) && |files| <= MAX_PACKAGE_ENTRIES && (forall f | f in files :: UploadPath(f))
      && q.files == files && Inferred(files, p.cases, q.cases)
    case Delete(name) => q.files == Remaining(p.files, name) && q.cases == KeptCases(q.files, p.cases)
    case SetScore(id, score) =>
      && (score.Some? ==> score.value >= 0) && (exists c | c in p.cases :: c.id == id)
      && q.files == p.files && q.cases == Rescored(p.cases, id, score)
  }

  /** The listed cases are exactly those the files suggest. */
  ghost predicate Agrees(p: Package) { Unambiguous(p.files) && Inferred(p.files, p.cases, p.cases) }

  lemma {:induction false} RemainingIsUnambiguous(files: seq<string>, name: string)
    requires Unambiguous(files)
    ensures Unambiguous(Remaining(files, name))
  {
    hide DataCaseStem;
    if files != [] {
      var init, last := files[..|files| - 1], files[|files| - 1];
      assert files == init + [last];
      OneMoreFile(init, last);
      RemainingIsUnambiguous(init, name);
      OneMoreFile(Remaining(init, name), last);
    }
  }

  lemma {:induction false} OwnScores(files: seq<string>, prior: seq<Case>, cases: seq<Case>)
    requires Orderly(files) && Inferred(files, prior, cases)
    ensures forall c | c in cases :: ScoreIn(cases, c.id) == c.score
  {
    InferenceIsDetermined(files, prior, cases, cases);
    forall c | c in cases ensures ScoreIn(cases, c.id) == c.score {
      var i :| 0 <= i < |cases| && cases[i] == c;
      ScoreAt(cases, i);
    }
  }

  lemma {:induction false} KeptScores(part: seq<string>, p: Package)
    requires Orderly(p.files) && Agrees(p)
    ensures var kept := KeptCases(part, p.cases);
            forall c | c in kept :: ScoreIn(kept, c.id) == c.score == ScoreIn(p.cases, c.id)
  {
    hide DataCaseStem;
    OwnScores(p.files, p.cases, p.cases);
    InferredOrder(p.files, p.cases, p.cases);
    var kept := KeptCases(part, p.cases);
    KeptStaysOrdered(part, p.cases);
    forall c | c in kept ensures ScoreIn(kept, c.id) == c.score {
      var i :| 0 <= i < |kept| && kept[i] == c;
      forall j, k | 0 <= j < k < |kept| ensures kept[j].id != kept[k].id {
        assert kept[j] in p.cases && kept[k] in p.cases;
      }
      ScoreAt(kept, i);
    }
  }

  /** A deletion keeps agreement exactly when nothing stands in. */
  lemma DeletionKeepsAgreement(p: Package, name: string, q: Package)
    requires Orderly(p.files) && Agrees(p) && EditTo(p, Delete(name), q)
    ensures Agrees(q) <==> !StandsIn(q.files, p.cases)
  {
    hide DataCaseStem;
    RemainingIsUnambiguous(p.files, name);
    DeletionIsReinference(p.files, q.files, p.cases);
    KeptScores(q.files, p);
    KeptStaysOrdered(q.files, p.cases);
    if !StandsIn(q.files, p.cases) {
      forall c ensures c in q.cases <==> Suggested(q.files, q.cases, c) {
        if Suggested(q.files, q.cases, c) {
          var again := c.(score := ScoreIn(p.cases, c.id));
          assert Suggested(q.files, p.cases, again) && again in q.cases;
        }
      }
    }
    if Agrees(q) {
      forall c | c in q.cases
        ensures FileFor(q.files, c.id, Input).Some? && FileFor(q.files, c.id, Answer).Some?
      {
        assert Suggested(q.files, q.cases, c);
      }
    }
  }

  lemma UploadKeepsAgreement(p: Package, files: seq<string>, q: Package)
    requires Orderly(files) && EditTo(p, Upload(files), q)
    ensures Agrees(q)
  {
    OwnScores(files, p.cases, q.cases);
    SameIdsInferred(files, p.cases, q.cases, q.cases);
  }

  lemma ScoreKeepsAgreement(p: Package, id: string, score: Option<int>, q: Package)
    requires Orderly(p.files) && Agrees(p) && EditTo(p, SetScore(id, score), q)
    ensures Agrees(q)
  {
    InferenceIsDetermined(p.files, p.cases, p.cases, p.cases);
    RescoredAt(p.cases, id, score);
    SameIdsInferred(p.files, p.cases, p.cases, q.cases);
  }

  ghost predicate Edits(run: seq<Package>, edits: seq<Edit>)
  {
    && |run| == |edits| + 1 && run[0] == Package([], [])
    && forall i | 0 <= i < |edits| :: EditTo(run[i], edits[i], run[i + 1])
  }

  predicate Safe(p: Package, edit: Edit, q: Package) { edit.Delete? ==> !StandsIn(q.files, p.cases) }

  lemma StepAgreement(p: Package, edit: Edit, q: Package)
    requires Orderly(p.files) && Orderly(q.files) && Agrees(p) && EditTo(p, edit, q)
    ensures Agrees(q) <==> Safe(p, edit, q)
  {
    match edit
    case Upload(files) => UploadKeepsAgreement(p, files, q);
    case Delete(name) => DeletionKeepsAgreement(p, name, q);
    case SetScore(id, score) => ScoreKeepsAgreement(p, id, score, q);
  }

  lemma NewPackageAgrees()
    ensures Agrees(Package([], []))
  {}

  lemma RunStep(run: seq<Package>, edits: seq<Edit>, i: nat)
    requires Edits(run, edits) && i < |edits| && forall p | p in run :: Orderly(p.files)
    ensures Agrees(run[i]) ==> (Agrees(run[i + 1]) <==> Safe(run[i], edits[i], run[i + 1]))
  {
    var p, q := run[i], run[i + 1];
    assert p in run && q in run && EditTo(p, edits[i], q);
    if Agrees(p) { StepAgreement(p, edits[i], q); }
  }

  /** Over a package's whole life, its case list is the one its files suggest, exactly when no deletion ever left a
      stand-in behind. */
  lemma {:induction false} AgreementOverRuns(run: seq<Package>, edits: seq<Edit>, n: nat)
    requires Edits(run, edits) && n <= |edits| && forall p | p in run :: Orderly(p.files)
    ensures (forall i | 0 <= i <= n :: Agrees(run[i])) <==> forall i | 0 <= i < n :: Safe(run[i], edits[i], run[i + 1])
  {
    hide Agrees, Safe, EditTo;
    if n == 0 {
      NewPackageAgrees();
    } else {
      AgreementOverRuns(run, edits, n - 1);
      RunStep(run, edits, n - 1);
    }
  }

  // ---- what a judger accepts ----------------------------------------------

  predicate Scored(cases: seq<Case>) { forall c | c in cases :: c.Points() >= 0 }

  const MAX_TASK_CASES := 10_000
  const MAX_CASE_ID_BYTES := 128

  /** `validateTask`, as far as package and cases go. */
  predicate Runnable(p: Package)
  {
    && 0 < |p.cases| <= MAX_TASK_CASES
    && (forall c | c in p.cases :: 0 < |c.id| <= MAX_CASE_ID_BYTES)
    && (forall i, j | 0 <= i < j < |p.cases| :: p.cases[i].id != p.cases[j].id)
    && Scored(p.cases)
    && (forall f | f in p.files :: TaskPath(f))
    && (forall c | c in p.cases :: c.input in p.files && c.answer in p.files)
  }

  /** There are cases, and no case id and no path is too long for a judger. */
  predicate SizesFit(p: Package)
  {
    && p.cases != [] && (forall c | c in p.cases :: |c.id| <= MAX_CASE_ID_BYTES)
    && forall f | f in p.files :: |f| <= MAX_PATH_BYTES
  }

  predicate WithinTaskLimits(p: Package) { SizesFit(p) && |p.cases| <= MAX_TASK_CASES }

  /** The judger's checks in figures. */
  lemma RunnableMeans(p: Package)
    ensures Runnable(p) <==>
      && 1 <= |p.cases| <= 10_000
      && (forall c | c in p.cases :: c.id != "" && |c.id| <= 128 && c.Points() >= 0)
      && (forall i, j | 0 <= i < j < |p.cases| :: p.cases[i].id != p.cases[j].id)
      && (forall f | f in p.files :: |f| <= 1024 && JudgerPath(f))
      && (forall c | c in p.cases :: c.input in p.files && c.answer in p.files)
  {
    hide JudgerPath;
  }

  /** A deletion can always be made, a score be set exactly for a listed case and if it is not negative; an upload is
      taken if its files are unambiguous, clean and at most 10,000. */
  lemma WhichEditsAreTaken(p: Package, name: string, id: string, score: Option<int>, files: seq<string>, q: Package)
    ensures exists r :: EditTo(p, Delete(name), r)
    ensures (exists r :: EditTo(p, SetScore(id, score), r)) <==>
              (score == None || score.value >= 0) && exists c | c in p.cases :: c.id == id
    ensures EditTo(p, Upload(files), q) <==>
              && Unambiguous(files) && (forall f | f in files :: UploadPath(f)) && |files| <= 10_000
              && q.files == files && Inferred(files, p.cases, q.cases)
  {
    hide UploadPath, Unambiguous, Inferred;
    var rest := Remaining(p.files, name);
    assert EditTo(p, Delete(name), Package(rest, KeptCases(rest, p.cases)));
    if (score == None || score.value >= 0) && exists c | c in p.cases :: c.id == id {
      assert EditTo(p, SetScore(id, score), Package(p.files, Rescored(p.cases, id, score)));
    }
  }

  lemma {:induction false} ScoreInIsAScore(prior: seq<Case>, id: string)
    requires Scored(prior)
    ensures ScoreIn(prior, id).Some? ==> ScoreIn(prior, id).value >= 0
  {
    if prior != [] {
      assert prior[|prior| - 1] in prior && forall c | c in prior[..|prior| - 1] :: c in prior;
      assert prior[|prior| - 1].Points() >= 0;
      ScoreInIsAScore(prior[..|prior| - 1], id);
    }
  }

  lemma {:induction false} RescoredStaysScored(cases: seq<Case>, id: string, score: Option<int>)
    requires Scored(cases) && (score.Some? ==> score.value >= 0)
    ensures Scored(Rescored(cases, id, score))
  {
    if cases != [] {
      assert forall c | c in cases[1..] :: c in cases;
      assert cases[0] in cases;
      RescoredStaysScored(cases[1..], id, score);
    }
  }

  lemma EditKeepsScored(p: Package, edit: Edit, q: Package)
    requires Scored(p.cases) && EditTo(p, edit, q)
    ensures Scored(q.cases)
  {
    match edit
    case Upload(files) =>
      forall c | c in q.cases ensures c.Points() >= 0 {
        assert Suggested(files, p.cases, c);
        ScoreInIsAScore(p.cases, c.id);
      }
    case Delete(_) =>
    case SetScore(id, score) => RescoredStaysScored(p.cases, id, score);
  }

  /** No edit makes a score negative. */
  lemma {:induction false} ScoresStayNonNegative(run: seq<Package>, edits: seq<Edit>, n: nat)
    requires Edits(run, edits) && n <= |edits|
    ensures Scored(run[n].cases)
  {
    hide EditTo;
    if n > 0 {
      ScoresStayNonNegative(run, edits, n - 1);
      var p, q := run[n - 1], run[n];
      assert EditTo(p, edits[n - 1], run[n - 1 + 1]);
      EditKeepsScored(p, edits[n - 1], q);
    }
  }

  lemma {:induction false} RemainingAreFewer(files: seq<string>, name: string)
    ensures |Remaining(files, name)| <= |files|
  {
    if files != [] { RemainingAreFewer(files[..|files| - 1], name); }
  }

  lemma {:induction false} FilesStayClean(run: seq<Package>, edits: seq<Edit>, n: nat)
    requires Edits(run, edits) && n <= |edits|
    ensures |run[n].files| <= MAX_PACKAGE_ENTRIES && forall f | f in run[n].files :: UploadPath(f)
  {
    hide UploadPath;
    if n > 0 {
      FilesStayClean(run, edits, n - 1);
      var p, edit := run[n - 1], edits[n - 1];
      assert EditTo(p, edit, run[n - 1 + 1]);
      if edit.Delete? { RemainingAreFewer(p.files, edit.name); }
    }
  }

  /** Different cases have different inputs. */
  lemma CasesAreFew(p: Package)
    requires Agrees(p)
    ensures |p.cases| <= |p.files|
  {
    hide DataCaseStem;
    var inputs := seq(|p.cases|, i requires 0 <= i < |p.cases| => p.cases[i].input);
    forall i | 0 <= i < |p.cases|
      ensures Suggested(p.files, p.cases, p.cases[i]) && inputs[i] in p.files
      ensures Classified(inputs[i]).0 == p.cases[i].id
    {
      assert p.cases[i] in p.cases;
      SuggestedHasFile(p.files, p.cases, p.cases[i]);
    }
    forall i, j | 0 <= i < j < |inputs| ensures inputs[i] != inputs[j] {
      assert p.cases[i] != p.cases[j];
    }
    NoDupFits(inputs, p.files);
  }

  /** While list and files agree, a judger accepts the package's tasks exactly if there are cases and the sizes are
      within its limits. */
  lemma AgreeingPackagesRun(p: Package)
    requires Orderly(p.files) && Agrees(p) && Scored(p.cases) && forall f | f in p.files :: UploadPath(f)
    ensures Runnable(p) <==> WithinTaskLimits(p)
  {
    hide DataCaseStem, UploadPath, JudgerPath;
    InferredOrder(p.files, p.cases, p.cases);
    forall c | c in p.cases ensures c.id != "" && c.input in p.files && c.answer in p.files {
      assert Suggested(p.files, p.cases, c);
      SuggestedHasFile(p.files, p.cases, c);
      FileForIsFile(p.files, c.id, Answer);
    }
    forall i, j | 0 <= i < j < |p.cases| ensures p.cases[i].id != p.cases[j].id {
      assert p.cases[i] in p.cases && p.cases[j] in p.cases;
    }
    forall f | f in p.files ensures JudgerPath(f) { UploadsPassJudgers(f); }
  }

  /** A case that a stand-in keeps has lost a file. */
  lemma StandInsAreRefused(p: Package, name: string, q: Package)
    requires Agrees(p) && EditTo(p, Delete(name), q) && StandsIn(q.files, p.cases)
    ensures !Runnable(q)
  {
    hide DataCaseStem, TaskPath;
    var c :| c in p.cases && Kept(q.files, c)
             && !(FileFor(q.files, c.id, Input).Some? && FileFor(q.files, c.id, Answer).Some?);
    assert Suggested(p.files, p.cases, c) && c in q.cases;
    FileForIsFile(p.files, c.id, Input);
    FileForIsFile(p.files, c.id, Answer);
    FileForIsFile(q.files, c.id, Input);
    FileForIsFile(q.files, c.id, Answer);
  }

  /** After any edit of a package whose list and files agree, judgers accept its tasks exactly if a deletion left no
      stand-in and the sizes are within their limits. */
  lemma EditLeavesRunnable(p: Package, edit: Edit, q: Package)
    requires Orderly(p.files) && Orderly(q.files) && Agrees(p) && Scored(p.cases) && EditTo(p, edit, q)
    requires forall f | f in p.files :: UploadPath(f)
    ensures Runnable(q) <==> Safe(p, edit, q) && WithinTaskLimits(q)
  {
    hide Agrees, Scored, Runnable, WithinTaskLimits, Orderly, UploadPath;
    if Safe(p, edit, q) {
      StepAgreement(p, edit, q);
      EditKeepsScored(p, edit, q);
      AgreeingPackagesRun(q);
    } else {
      StandInsAreRefused(p, edit.name, q);
    }
  }

  /** So along any life without stand-ins judgers refuse a package only for want of cases or for a long name. */
  lemma RunsStayRunnable(run: seq<Package>, edits: seq<Edit>, n: nat)
    requires Edits(run, edits) && n <= |edits| && forall p | p in run :: Orderly(p.files)
    requires forall i | 0 <= i < n :: Safe(run[i], edits[i], run[i + 1])
    ensures Runnable(run[n]) <==> SizesFit(run[n])
  {
    hide Agrees, Safe, Runnable, SizesFit, Orderly, UploadPath, Scored;
    AgreementOverRuns(run, edits, n);
    ScoresStayNonNegative(run, edits, n);
    FilesStayClean(run, edits, n);
    assert run[n] in run;
    AgreeingPackagesRun(run[n]);
    CasesAreFew(run[n]);
  }
}
