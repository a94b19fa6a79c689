/** Concurrent editors of one problem package. An editor computes its next version from the version its client saw, and
    commits it only if the row still holds that version. Other handlers save the whole problem row: they read it, and
    later write all its columns back, the package among them. */
module PackageEdits {
  import opened Manifest
  import opened PackageRuns

  /** A handler between reading the row and its compare-and-swap. */
  datatype Editor = Editor(base: Package, edit: Edit, next: Package)

  /** `savers` holds, for every whole-row save under way, the package it read. */
  datatype State = State(row: Package, editors: map<nat, Editor>, savers: map<nat, Package>)

  datatype Step =
    | Start(editor: nat, seen: Package, edit: Edit, next: Package)   // the row is read; If-Match names `seen`
    | Swap(editor: nat)                                              // the compare-and-swap, which may refuse
    | GiveUp(editor: nat)
    | BeginSave(saver: nat)                                          // a whole-row save reads the row
    | EndSave(saver: nat)                                            // and writes it back

  const BEGIN := State(Package([], []), map[], map[])

  /** `requirePackageMatch`, with versions for their hashes. */
  ghost predicate CanStep(s: State, step: Step)
  {
    match step
    case Start(editor, seen, edit, next) => editor !in s.editors && seen == s.row && EditTo(s.row, edit, next)
    case Swap(editor) => editor in s.editors
    case GiveUp(editor) => editor in s.editors
    case BeginSave(saver) => saver !in s.savers
    case EndSave(saver) => saver in s.savers
  }

  predicate Commits(s: State, step: Step)
  {
    step.Swap? && step.editor in s.editors && s.row == s.editors[step.editor].base
  }

  function StepTo(s: State, step: Step): State
    requires step.Swap? ==> step.editor in s.editors
    requires step.EndSave? ==> step.saver in s.savers
  {
    match step
    case Start(editor, seen, edit, next) => s.(editors := s.editors[editor := Editor(s.row, edit, next)])
    case Swap(editor) =>
      s.(row := if Commits(s, step) then s.editors[editor].next else s.row, editors := s.editors - {editor})
    case GiveUp(editor) => s.(editors := s.editors - {editor})
    case BeginSave(saver) => s.(savers := s.savers[saver := s.row])
    case EndSave(saver) => s.(row := s.savers[saver], savers := s.savers - {saver})
  }

  ghost predicate IsRun(run: seq<State>, steps: seq<Step>)
  {
    && |run| == |steps| + 1 && run[0] == BEGIN
    && forall i | 0 <= i < |steps| :: CanStep(run[i], steps[i]) && run[i + 1] == StepTo(run[i], steps[i])
  }

  /** The versions the editors have committed, and the edits between them. */
  ghost function History(run: seq<State>, steps: seq<Step>, n: nat): (seq<Package>, seq<Edit>)
    requires IsRun(run, steps) && n <= |steps|
  {
    if n == 0 then ([BEGIN.row], [])
    else
      var (versions, edits) := History(run, steps, n - 1);
      if Commits(run[n - 1], steps[n - 1])
      then (versions + [run[n].row], edits + [run[n - 1].editors[steps[n - 1].editor].edit])
      else (versions, edits)
  }

  /** After `n` steps the row is what the committed edits, one after another, made of it. */
  ghost predicate Serial(run: seq<State>, steps: seq<Step>, n: nat)
    requires IsRun(run, steps) && n <= |steps|
  {
    var (versions, edits) := History(run, steps, n);
    Edits(versions, edits) && versions[|versions| - 1] == run[n].row
  }

  /** A save that ends finds the package it read. */
  predicate Fresh(s: State, step: Step)
  {
    step.EndSave? && step.saver in s.savers ==> s.savers[step.saver] == s.row
  }

  lemma {:induction false} EditorsAreHonest(run: seq<State>, steps: seq<Step>, n: nat)
    requires IsRun(run, steps) && n <= |steps|
    ensures forall e | e in run[n].editors ::
              EditTo(run[n].editors[e].base, run[n].editors[e].edit, run[n].editors[e].next)
  {
    hide EditTo;
    if n > 0 {
      EditorsAreHonest(run, steps, n - 1);
      assert CanStep(run[n - 1], steps[n - 1]) && run[n - 1 + 1] == StepTo(run[n - 1], steps[n - 1]);
    }
  }

  lemma {:induction false} EditsMore(versions: seq<Package>, edits: seq<Edit>, edit: Edit, next: Package)
    requires Edits(versions, edits) && EditTo(versions[|versions| - 1], edit, next)
    ensures Edits(versions + [next], edits + [edit])
  {
    hide EditTo;
  }

  /** A step from a serial state leads to a serial one exactly if it is no save that brings back another version. */
  lemma StepIsSerial(run: seq<State>, steps: seq<Step>, i: nat)
    requires IsRun(run, steps) && i < |steps| && Serial(run, steps, i)
    ensures Serial(run, steps, i + 1) <==> Fresh(run[i], steps[i])
  {
    hide EditTo;
    EditorsAreHonest(run, steps, i);
    var s, step := run[i], steps[i];
    assert CanStep(s, step) && run[i + 1] == StepTo(s, step);
    if Commits(s, step) {
      var (versions, edits) := History(run, steps, i);
      EditsMore(versions, edits, s.editors[step.editor].edit, run[i + 1].row);
    }
  }

  /** However editors and saves interleave: at every moment the row is what the committed edits made of it, none lost
      and none applied to a version its client had not seen, if and only if no save ever brought back another version
      than it found. */
  lemma {:induction false} EditsSerialize(run: seq<State>, steps: seq<Step>, n: nat)
    requires IsRun(run, steps) && n <= |steps|
    ensures (forall i | 0 <= i <= n :: Serial(run, steps, i)) <==> forall i | 0 <= i < n :: Fresh(run[i], steps[i])
  {
    hide EditTo;
    if n > 0 {
      EditsSerialize(run, steps, n - 1);
      if Serial(run, steps, n - 1) { StepIsSerial(run, steps, n - 1); }
    }
  }

  /** Each start is followed by at most one swap, and none after giving up; each beginning of a save by one end. */
  lemma {:induction false} ActsOnce(run: seq<State>, steps: seq<Step>, i: nat, j: nat, who: nat)
    requires IsRun(run, steps) && i < j <= |steps|
    ensures (steps[i] == Swap(who) || steps[i] == GiveUp(who)) && who in run[j].editors ==>
              exists k | i < k < j :: steps[k].Start? && steps[k].editor == who
    ensures steps[i] == EndSave(who) && who in run[j].savers ==> exists k | i < k < j :: steps[k] == BeginSave(who)
  {
    hide EditTo;
    assert CanStep(run[j - 1], steps[j - 1]) && run[j - 1 + 1] == StepTo(run[j - 1], steps[j - 1]);
    if i < j - 1 { ActsOnce(run, steps, i, j - 1, who); }
  }

  lemma {:induction false} SameHistory(run: seq<State>, steps: seq<Step>, run': seq<State>, steps': seq<Step>, n: nat)
    requires IsRun(run, steps) && IsRun(run', steps') && n <= |steps| && run <= run' && steps <= steps'
    ensures History(run', steps', n) == History(run, steps, n)
  {
    hide EditTo;
    if n > 0 { SameHistory(run, steps, run', steps', n - 1); }
  }

  /** A run goes on by a step; only a commit adds to its history. */
  lemma GoOn(run: seq<State>, steps: seq<Step>, step: Step) returns (run': seq<State>, steps': seq<Step>)
    requires IsRun(run, steps) && CanStep(run[|steps|], step)
    ensures IsRun(run', steps') && run' == run + [StepTo(run[|steps|], step)] && steps' == steps + [step]
    ensures !Commits(run[|steps|], step) ==> History(run', steps', |steps'|) == History(run, steps, |steps|)
    ensures Commits(run[|steps|], step) ==>
              var (versions, edits) := History(run, steps, |steps|);
              var editor := run[|steps|].editors[step.editor];
              History(run', steps', |steps'|) == (versions + [editor.next], edits + [editor.edit])
  {
    hide EditTo;
    run', steps' := run + [StepTo(run[|steps|], step)], steps + [step];
    forall i | 0 <= i < |steps'| ensures CanStep(run'[i], steps'[i]) && run'[i + 1] == StepTo(run'[i], steps'[i]) {
      if i < |steps| { assert run'[i] == run[i] && run'[i + 1] == run[i + 1] && steps'[i] == steps[i]; }
    }
    SameHistory(run, steps, run', steps', |steps|);
  }

  /** At any time: a save begins, any edit is committed, the save ends. The history has the edit, the row has not. */
  lemma StaleSaveLosesEdit(run: seq<State>, steps: seq<Step>, saver: nat, editor: nat, edit: Edit, next: Package)
    returns (run': seq<State>, steps': seq<Step>)
    requires IsRun(run, steps) && saver !in run[|steps|].savers && editor !in run[|steps|].editors
    requires EditTo(run[|steps|].row, edit, next) && next != run[|steps|].row
    ensures IsRun(run', steps')
    ensures steps' == steps + [BeginSave(saver), Start(editor, run[|steps|].row, edit, next), Swap(editor),
                               EndSave(saver)]
    ensures History(run', steps', |steps'|)
            == (History(run, steps, |steps|).0 + [next], History(run, steps, |steps|).1 + [edit])
    ensures run'[|steps'|].row == run[|steps|].row && !Serial(run', steps', |steps'|)
  {
    hide EditTo;
    var row := run[|steps|].row;
    run', steps' := GoOn(run, steps, BeginSave(saver));
    run', steps' := GoOn(run', steps', Start(editor, row, edit, next));
    run', steps' := GoOn(run', steps', Swap(editor));
    run', steps' := GoOn(run', steps', EndSave(saver));
  }

  /** So under concurrent editing, too, the case list is the one the files suggest, for as long as no save is stale and
      no committed deletion has left a stand-in behind. */
  lemma {:induction false} AgreementUnderConcurrency(run: seq<State>, steps: seq<Step>, n: nat)
    requires IsRun(run, steps) && n <= |steps| && forall i | 0 <= i < n :: Fresh(run[i], steps[i])
    requires forall p | p in History(run, steps, n).0 :: Orderly(p.files)
    requires var (versions, edits) := History(run, steps, n);
             Edits(versions, edits) ==> forall i | 0 <= i < |edits| :: Safe(versions[i], edits[i], versions[i + 1])
    ensures Agrees(run[n].row)
  {
    EditsSerialize(run, steps, n);
    assert Serial(run, steps, n);
    var (versions, edits) := History(run, steps, n);
    AgreementOverRuns(versions, edits, |edits|);
  }
}
