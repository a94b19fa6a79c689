/** Deletions after which the case list is not the one the files suggest. */
module StandIns {
  import opened Basics
  import opened Text
  import opened CaseNames
  import opened Manifest
  import opened Paths
  import opened PackageRuns

  // ---- in any package -----------------------------------------------------

  lemma OnlyOneFor(files: seq<string>, f: string, g: string, id: string, kind: Kind)
    requires Unambiguous(files) && f in files && g in files && InData(f) && InData(g)
    requires IsFor(f, id, kind) && IsFor(g, id, kind)
    ensures f == g
  {
    hide DataCaseStem;
    var i :| 0 <= i < |files| && files[i] == f;
    var j :| 0 <= j < |files| && files[j] == g;
  }

  /** In any package: deleting a case's input keeps the case if some file outside data/ is named like an input of it.
      The case then points to the deleted file, inferring anew would drop it, and judgers refuse the package's
      tasks. */
  lemma DeletedInputStaysListed(p: Package, c: Case, other: string, q: Package)
    requires Orderly(p.files) && Agrees(p) && c in p.cases && EditTo(p, Delete(c.input), q)
    requires other in p.files && !InData(other) && IsFor(other, c.id, Input)
    ensures c in q.cases && c.input !in q.files && forall d | Suggested(q.files, p.cases, d) :: d.id != c.id
    ensures !Agrees(q) && !Runnable(q)
  {
    hide DataCaseStem, Runnable, Orderly;
    assert Suggested(p.files, p.cases, c);
    FileForIsFile(p.files, c.id, Input);
    FileForIsFile(p.files, c.id, Answer);
    FileForIsFile(q.files, c.id, Input);
    assert c.input[4] == '/' && c.input != "data" && c.input != "judge";
    assert c.answer != c.input && other != c.input;
    assert c.answer in q.files && other in q.files;
    if FileFor(q.files, c.id, Input).Some? {
      OnlyOneFor(p.files, c.input, FileFor(q.files, c.id, Input).value, c.id, Input);
    }
    DeletionKeepsAgreement(p, c.input, q);
    StandInsAreRefused(p, c.input, q);
  }

  // ---- there are such packages --------------------------------------------

  const INPUT := "data/1.in"
  const ANSWER := "data/1.out"
  const OTHER := "judge/1.in"
  const FILES := [INPUT, ANSWER, OTHER]
  const CASE := Case("1", INPUT, ANSWER, None)
  const EMPTY := Package([], [])
  const UPLOADED := Package(FILES, [CASE])
  const LEFT := Package([ANSWER, OTHER], [CASE])

  lemma Cut(name: string)
    ensures InData("data/" + name) && Classified("data/" + name) == DataCaseStem(name)
  {}

  lemma OneIn(dir: string)
    requires dir == "" || dir == "judge/"
    ensures DataCaseStem(dir + "1.in") == ("1", Input)
  {
    hide DataCaseStem;
    assert ['1'] + ".in" == "1.in" && ['1'] == "1";
    NumberedInput(dir, ['1']);
  }

  lemma OneOut()
    ensures DataCaseStem("1.out") == ("1", Answer)
  {
    hide DataCaseStem;
    assert "" + (['1'] + ".out") == "1.out" && ['1'] == "1";
    NumberedName("", ['1'], ".out");
  }

  lemma AnInput()
    ensures InData(INPUT) && IsFor(INPUT, "1", Input)
  {
    hide DataCaseStem;
    Cut("1.in");
    assert "data/" + "1.in" == "data/1.in" && "" + "1.in" == "1.in";
    OneIn("");
  }

  lemma AnAnswer()
    ensures InData(ANSWER) && IsFor(ANSWER, "1", Answer)
  {
    hide DataCaseStem;
    Cut("1.out");
    assert "data/" + "1.out" == "data/1.out";
    OneOut();
  }

  lemma AStranger()
    ensures !InData(OTHER) && IsFor(OTHER, "1", Input)
  {
    hide DataCaseStem;
    assert "judge/" + "1.in" == "judge/1.in" && "judge/1.in"[0] != "data/"[0];
    OneIn("judge/");
  }

  /** A plain name below a section is a path uploads let in. */
  lemma SectionFile(section: string, base: string)
    requires section == "data" || section == "judge"
    requires base != "" && '/' !in base && '\\' !in base && Plain([base]) && !Space(base[|base| - 1])
    ensures UploadPath(section + "/" + base)
  {
    hide Split, Trim, CleanKey;
    var name := section + "/" + base;
    SplitFirst(base, "", '/');
    SplitFirst(section, base, '/');
    assert section + ['/'] + base == name && [section] + [base] == [section, base];
    assert name[0] == section[0] && name[|name| - 1] == base[|base| - 1];
    TrimmedEnd(name);
    assert forall p | p in [section, base] :: p == section || p in [base];
    PlainIsKey(name);
  }

  lemma PlainNames()
    ensures Plain(["1.in"]) && Plain(["1.out"])
  {
    assert forall p | p in ["1.in"] :: p == "1.in";
    assert forall p | p in ["1.out"] :: p == "1.out";
  }

  lemma PathsAreFine()
    ensures forall f | f in FILES :: UploadPath(f)
  {
    hide UploadPath, Plain;
    PlainNames();
    assert "data" + "/" + "1.in" == INPUT && "data" + "/" + "1.out" == ANSWER && "judge" + "/" + "1.in" == OTHER;
    SectionFile("data", "1.in");
    SectionFile("data", "1.out");
    SectionFile("judge", "1.in");
  }

  lemma Classes()
    ensures InData(INPUT) && Classified(INPUT) == ("1", Input) && InData(ANSWER) && Classified(ANSWER) == ("1", Answer)
    ensures !InData(OTHER) && Classified(OTHER) == ("1", Input)
    ensures forall f | f in FILES :: Classified(f).0 == "1"
  {
    hide DataCaseStem;
    AnInput();
    AnAnswer();
    AStranger();
  }

  lemma {:induction false} FilesOf(stem: string)
    ensures FileFor(FILES, stem, Input) == if stem == "1" then Some(INPUT) else None
    ensures FileFor(FILES, stem, Answer) == if stem == "1" then Some(ANSWER) else None
  {
    hide DataCaseStem;
    Classes();
    assert FILES[..2] == [INPUT, ANSWER] && [INPUT, ANSWER][..1] == [INPUT] && [INPUT][..0] == [];
    assert FileFor([], stem, Input) == FileFor([], stem, Answer) == None;
    assert FileFor([INPUT], stem, Input) == if stem == "1" then Some(INPUT) else None;
    assert FileFor([INPUT], stem, Answer) == None;
    assert FileFor([INPUT, ANSWER], stem, Input) == FileFor([INPUT], stem, Input);
    assert FileFor([INPUT, ANSWER], stem, Answer) == if stem == "1" then Some(ANSWER) else None;
  }

  lemma UploadedAgrees()
    ensures Orderly(FILES) && Unambiguous(FILES) && Inferred(FILES, [], [CASE]) && Inferred(FILES, [CASE], [CASE])
  {
    hide DataCaseStem;
    Classes();
    AStranger();
    FittingNumbersAreOrderly(FILES);
    forall c
      ensures Suggested(FILES, [], c) <==> c == CASE
      ensures Suggested(FILES, [CASE], c) <==> c == CASE
    {
      FilesOf(c.id);
      assert [CASE][..0] == [];
    }
  }

  lemma InputDeleted()
    ensures EditTo(UPLOADED, Delete(INPUT), LEFT)
  {
    hide DataCaseStem;
    Classes();
    assert FILES[..2] == [INPUT, ANSWER] && [INPUT, ANSWER][..1] == [INPUT] && [INPUT][..0] == [];
    assert INPUT != ANSWER && INPUT != OTHER;
    assert Remaining([], INPUT) == Remaining([INPUT], INPUT) == [];
    assert Remaining([INPUT, ANSWER], INPUT) == [ANSWER];
    assert Remaining(FILES, INPUT) == [ANSWER, OTHER];
    assert ANSWER in LEFT.files && OTHER in LEFT.files;
    assert Kept(LEFT.files, CASE) && [CASE][..0] == [];
    assert KeptCases(LEFT.files, []) == [];
    assert KeptCases(LEFT.files, [CASE]) == [CASE];
  }

  /** A package is uploaded; judgers accept its tasks; one input is deleted; judgers refuse them. */
  lemma AStandIn()
    ensures Edits([EMPTY, UPLOADED, LEFT], [Upload(FILES), Delete(INPUT)])
    ensures Runnable(UPLOADED) && !Runnable(LEFT)
  {
    hide DataCaseStem, UploadPath, Runnable, Remaining, KeptCases, Orderly;
    UploadedAgrees();
    PathsAreFine();
    Classes();
    InputDeleted();
    assert CASE in UPLOADED.cases && OTHER in FILES;
    DeletedInputStaysListed(UPLOADED, CASE, OTHER, LEFT);
    AgreeingPackagesRun(UPLOADED);
  }
}
