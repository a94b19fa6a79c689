/** The package garbage collector, interleaved with uploads, edits, leases and results.

    A world is the judging protocol's state together with the problem rows, the object store and the
    collector's private notes. The collector reads in three phases (problem rows, judging submissions,
    object listing) and then deletes one object at a time; anything may happen between two of its steps. */
module PackageGC {
  import opened Judging

  const GRACE := 24 * 3600 * SECOND

  /** The package column: empty, unreadable, or a hash with the rest of the manifest (`meta`). */
  datatype Package = NoPackage | Corrupt | Package(hash: string, meta: int)

  datatype Problem = Problem(live: bool, package: Package)

  /** Names under `problems/`: the archives of a problem, and anything else, which the collector skips. */
  datatype Key = Archive(problem: nat, hash: string) | Foreign(name: string)

  /** An upload that has stored its archive and not yet committed it to the row it started from. */
  datatype Upload = Upload(problem: nat, base: Package, next: Package, putAt: int)

  /** A whole-row save in progress: the handler read the row with this package and will write it back, even into a row
      deleted since, which that revives: a save that finds no live row inserts one, or overwrites the deleted one. */
  datatype RowSave = RowSave(problem: nat, package: Package)

  datatype Collector =
    | Idle
    | ReadRows(before: int, keep: set<Key>, protected: set<nat>)
    | ReadIds(before: int, keep: set<Key>, protected: set<nat>)
    | Listed(before: int, keep: set<Key>, protected: set<nat>, listing: map<Key, int>)

  datatype World = World(now: int, judging: State, payload: map<Ticket, string>, problems: map<nat, Problem>,
                         objects: map<Key, int>, uploads: map<nat, Upload>, saves: set<RowSave>, gc: Collector)

  datatype Step =
    | Tick(now: int)
    | Judge(action: Action)
    | ReadPayload(lease: Lease)
    | HandOut(lease: Lease)
    | CreateProblem(id: nat)
    | DeleteProblem(id: nat)
    | Put(upload: nat, problem: nat, base: Package, next: Package)
    | Commit(upload: nat)
    | Abandon(upload: nat)
    | Edit(id: nat, base: Package, next: Package)
    | BeginSave(id: nat)
    | EndSave(save: RowSave)
    | GcRows(before: int)
    | GcIds
    | GcList
    | GcDelete(key: Key)
    | GcEnd

  const START := World(0, EMPTY, map[], map[], map[], map[], {}, Idle)

  // ---- what the code allows -----------------------------------------------

  predicate IsLive(w: World, id: nat) { id in w.problems && w.problems[id].live }

  predicate Holds(w: World, id: nat, package: Package) { IsLive(w, id) && w.problems[id].package == package }

  predicate Doomed(gc: Collector, key: Key)
    requires gc.Listed?
  {
    && key in gc.listing && key.Archive? && key !in gc.keep && key.problem !in gc.protected
    && gc.listing[key] < gc.before
  }

  /** The rows a payload build reads: the submission's problem must be live and hold a package. */
  predicate Buildable(w: World, lease: Lease)
  {
    && lease.id in w.judging.rows && IsLive(w, w.judging.rows[lease.id].problem)
    && w.problems[w.judging.rows[lease.id].problem].package.Package?
  }

  predicate CanStep(w: World, step: Step)
  {
    match step
    case Tick(now) => w.now <= now
    case Judge(action) => !action.BuildOk? && Enabled(w.judging, action)
    case ReadPayload(lease) => lease in w.judging.building && TicketOf(lease) !in w.payload && Buildable(w, lease)
    case HandOut(lease) => lease in w.judging.building && TicketOf(lease) in w.payload
    case CreateProblem(id) => id !in w.problems
    case DeleteProblem(id) => IsLive(w, id)
    case Put(upload, problem, base, next) => upload !in w.uploads && !base.Corrupt? && next.Package?
    case Commit(upload) => upload in w.uploads && Holds(w, w.uploads[upload].problem, w.uploads[upload].base)
    case Abandon(upload) => upload in w.uploads
    case Edit(id, base, next) =>
      Holds(w, id, base) && (next.NoPackage? || (base.Package? && next.Package? && next.hash == base.hash))
    case BeginSave(id) => IsLive(w, id)
    case EndSave(save) => save in w.saves && save.problem in w.problems
    case GcRows(before) => w.gc.Idle? && before <= w.now - GRACE
    case GcIds => w.gc.ReadRows?
    case GcList => w.gc.ReadIds?
    case GcDelete(key) => w.gc.Listed? && Doomed(w.gc, key)
    case GcEnd => true
  }

  function StepTo(w: World, step: Step): World
    requires CanStep(w, step)
  {
    match step
    case Tick(now) => w.(now := now)
    case Judge(action) => w.(judging := Next(w.judging, action))
    case ReadPayload(lease) =>
      w.(payload := w.payload[TicketOf(lease) := w.problems[w.judging.rows[lease.id].problem].package.hash])
    case HandOut(lease) => w.(judging := Next(w.judging, BuildOk(lease)))
    case CreateProblem(id) => w.(problems := w.problems[id := Problem(true, NoPackage)])
    case DeleteProblem(id) => w.(problems := w.problems[id := w.problems[id].(live := false)])
    case Put(upload, problem, base, next) =>
      w.(objects := w.objects[Archive(problem, next.hash) := w.now],
         uploads := w.uploads[upload := Upload(problem, base, next, w.now)])
    case Commit(upload) =>
      w.(problems := w.problems[w.uploads[upload].problem := Problem(true, w.uploads[upload].next)],
         uploads := w.uploads - {upload})
    case Abandon(upload) => w.(uploads := w.uploads - {upload})
    case Edit(id, _, next) => w.(problems := w.problems[id := Problem(true, next)])
    case BeginSave(id) => w.(saves := w.saves + {RowSave(id, w.problems[id].package)})
    case EndSave(save) =>
      w.(problems := w.problems[save.problem := Problem(true, save.package)], saves := w.saves - {save})
    case GcRows(before) => w.(gc := ReadRows(before, KeptKeys(w.problems), Unreadable(w.problems)))
    case GcIds => w.(gc := ReadIds(w.gc.before, w.gc.keep, w.gc.protected + BeingJudged(w.judging.rows)))
    case GcList => w.(gc := Listed(w.gc.before, w.gc.keep, w.gc.protected, w.objects))
    case GcDelete(key) => w.(objects := w.objects - {key})
    case GcEnd => w.(gc := Idle)
  }

  function KeptKeys(problems: map<nat, Problem>): set<Key>
  {
    set id | id in problems && problems[id].live && problems[id].package.Package? ::
      Archive(id, problems[id].package.hash)
  }

  function Unreadable(problems: map<nat, Problem>): set<nat>
  {
    set id | id in problems && problems[id].live && problems[id].package.Corrupt?
  }

  function BeingJudged(rows: Rows): set<nat>
  {
    set id | id in rows && rows[id].status.Judging? :: rows[id].problem
  }

  // ---- safety -------------------------------------------------------------

  /** The submission is still being judged under this very ticket. */
  predicate Current(w: World, t: Ticket)
  {
    && t in w.payload && t.id in w.judging.rows
    && w.judging.rows[t.id].status.Judging? && w.judging.rows[t.id].attempt == t.attempt
  }

  function TaskKey(w: World, t: Ticket): Key
    requires Current(w, t)
  {
    Archive(w.judging.rows[t.id].problem, w.payload[t])
  }

  /** Every live problem row and every task still current has its archive in the store. */
  ghost predicate Safe(w: World)
  {
    && (forall id | IsLive(w, id) && w.problems[id].package.Package? ::
          Archive(id, w.problems[id].package.hash) in w.objects)
    && (forall t | Current(w, t) :: TaskKey(w, t) in w.objects)
  }

  /** The running collection will not delete `key`. */
  predicate Spared(w: World, key: Key)
    requires key.Archive?
  {
    match w.gc
    case Idle => true
    case Listed(before, keep, protected, listing) =>
      key in keep || key.problem in protected || key !in listing || listing[key] >= before
    case _ =>
      key in w.gc.keep || key.problem in w.gc.protected || (key in w.objects && w.objects[key] >= w.gc.before)
  }

  ghost predicate RowsSpared(w: World)
  {
    forall id | IsLive(w, id) && w.problems[id].package.Package? ::
      Spared(w, Archive(id, w.problems[id].package.hash))
  }

  /** A current task is safe from the running collection; before the collector has read the judging ids it
      need not be: being judged, it will be among them. */
  ghost predicate TasksSpared(w: World)
  {
    !w.gc.ReadRows? ==> forall t | Current(w, t) :: Spared(w, TaskKey(w, t))
  }

  /** The archive is in the store, and the running collection leaves it there. */
  ghost predicate Sheltered(w: World, key: Key)
    requires key.Archive?
  {
    key in w.objects && Spared(w, key)
  }

  ghost predicate WorldInv(w: World)
  {
    && Inv(w.judging) && Safe(w) && RowsSpared(w) && TasksSpared(w)
    && (!w.gc.Idle? ==> w.gc.before <= w.now - GRACE)
    && (forall t | t in w.payload :: t.id in w.judging.rows && t.attempt <= w.judging.rows[t.id].attempt)
  }

  /** The step brings no archive into a row that is not sheltered; only commits and whole-row saves could. */
  ghost predicate Harmless(w: World, step: Step)
  {
    match step
    case Commit(upload) =>
      upload in w.uploads && w.uploads[upload].next.Package? ==>
        Sheltered(w, Archive(w.uploads[upload].problem, w.uploads[upload].next.hash))
    case EndSave(save) => save.package.Package? ==> Sheltered(w, Archive(save.problem, save.package.hash))
    case _ => true
  }

  // ---- every harmless step keeps it ---------------------------------------

  /** No step of the protocol puts a row back into judging under an attempt it has had. */
  lemma StillJudgedWas(s: State, a: Action, t: Ticket)
    requires Inv(s) && Enabled(s, a) && t.id in s.rows && t.attempt <= s.rows[t.id].attempt
    requires t.id in Next(s, a).rows
    requires Next(s, a).rows[t.id].status.Judging? && Next(s, a).rows[t.id].attempt == t.attempt
    ensures s.rows[t.id].status.Judging? && s.rows[t.id].attempt == t.attempt
    ensures Next(s, a).rows[t.id].problem == s.rows[t.id].problem
  {}

  lemma AttemptsStay(s: State, a: Action, id: nat)
    requires Enabled(s, a) && id in s.rows
    ensures id in Next(s, a).rows && s.rows[id].attempt <= Next(s, a).rows[id].attempt
  {}

  /** A judging step reads no payload, so whatever task is current after it was current before, with the same key. */
  lemma JudgeKeepsWorld(w: World, a: Action, v: World)
    requires WorldInv(w) && Enabled(w.judging, a) && v == w.(judging := Next(w.judging, a))
    ensures WorldInv(v)
  {
    StepKeepsInv(w.judging, a);
    forall t | t in w.payload ensures t.id in v.judging.rows && t.attempt <= v.judging.rows[t.id].attempt {
      AttemptsStay(w.judging, a, t.id);
    }
    forall t | Current(v, t) ensures Current(w, t) && TaskKey(v, t) == TaskKey(w, t) {
      StillJudgedWas(w.judging, a, t);
    }
  }

  lemma ReadKeepsWorld(w: World, step: Step)
    requires WorldInv(w) && CanStep(w, step) && step.ReadPayload?
    ensures WorldInv(StepTo(w, step))
  {
    var v := StepTo(w, step);
    forall t | Current(v, t) && t != TicketOf(step.lease) ensures Current(w, t) && TaskKey(v, t) == TaskKey(w, t) {}
  }

  lemma QuietStepKeepsWorld(w: World, step: Step)
    requires WorldInv(w) && CanStep(w, step)
    requires step.Tick? || step.CreateProblem? || step.DeleteProblem? || step.Abandon? || step.BeginSave?
    ensures WorldInv(StepTo(w, step))
  {
    var v := StepTo(w, step);
    forall t | Current(v, t) ensures Current(w, t) && TaskKey(v, t) == TaskKey(w, t) {}
  }

  lemma PutKeepsWorld(w: World, step: Step)
    requires WorldInv(w) && CanStep(w, step) && step.Put?
    ensures WorldInv(StepTo(w, step))
  {
    var v := StepTo(w, step);
    forall t | Current(v, t) ensures Current(w, t) && TaskKey(v, t) == TaskKey(w, t) {}
  }

  lemma RowWriteKeepsWorld(w: World, step: Step)
    requires WorldInv(w) && CanStep(w, step) && Harmless(w, step)
    requires step.Commit? || step.Edit? || step.EndSave?
    ensures WorldInv(StepTo(w, step))
  {
    var v := StepTo(w, step);
    forall t | Current(v, t) ensures Current(w, t) && TaskKey(v, t) == TaskKey(w, t) {}
  }

  lemma ReadingKeepsWorld(w: World, step: Step)
    requires WorldInv(w) && CanStep(w, step) && (step.GcRows? || step.GcIds? || step.GcList?)
    ensures WorldInv(StepTo(w, step))
  {
    var v := StepTo(w, step);
    forall t | Current(v, t) ensures Current(w, t) && TaskKey(v, t) == TaskKey(w, t) {}
  }

  lemma DeletingKeepsWorld(w: World, step: Step)
    requires WorldInv(w) && CanStep(w, step) && (step.GcDelete? || step.GcEnd?)
    ensures WorldInv(StepTo(w, step))
  {
    var v := StepTo(w, step);
    forall t | Current(v, t) ensures Current(w, t) && TaskKey(v, t) == TaskKey(w, t) {}
  }

  lemma HarmlessKeepsWorld(w: World, step: Step)
    requires WorldInv(w) && CanStep(w, step) && Harmless(w, step)
    ensures WorldInv(StepTo(w, step))
  {
    match step
    case Judge(action) => JudgeKeepsWorld(w, action, StepTo(w, step));
    case HandOut(lease) => JudgeKeepsWorld(w, BuildOk(lease), StepTo(w, step));
    case ReadPayload(_) => ReadKeepsWorld(w, step);
    case Commit(_) => RowWriteKeepsWorld(w, step);
    case Edit(_, _, _) => RowWriteKeepsWorld(w, step);
    case EndSave(_) => RowWriteKeepsWorld(w, step);
    case GcRows(_) => ReadingKeepsWorld(w, step);
    case GcIds => ReadingKeepsWorld(w, step);
    case GcList => ReadingKeepsWorld(w, step);
    case GcDelete(_) => DeletingKeepsWorld(w, step);
    case GcEnd => DeletingKeepsWorld(w, step);
    case Put(_, _, _, _) => PutKeepsWorld(w, step);
    case _ => QuietStepKeepsWorld(w, step);
  }

  // ---- and no other step does ---------------------------------------------

  ghost predicate IsPath(ws: seq<World>, steps: seq<Step>)
  {
    && |ws| == |steps| + 1
    && forall i | 0 <= i < |steps| :: CanStep(ws[i], steps[i]) && ws[i + 1] == StepTo(ws[i], steps[i])
  }

  /** A path on which every step from the `from`-th on is harmless. */
  ghost predicate HarmlessPath(ws: seq<World>, steps: seq<Step>, from: nat)
  {
    IsPath(ws, steps) && forall i | from <= i < |steps| :: Harmless(ws[i], steps[i])
  }

  lemma {:induction false} HarmlessPathsAreSafe(ws: seq<World>, steps: seq<Step>, n: nat)
    requires HarmlessPath(ws, steps, 0) && WorldInv(ws[0]) && n < |ws|
    ensures WorldInv(ws[n])
  {
    if n > 0 {
      HarmlessPathsAreSafe(ws, steps, n - 1);
      HarmlessKeepsWorld(ws[n - 1], steps[n - 1]);
    }
  }

  lemma Follow(ws: seq<World>, steps: seq<Step>, from: nat, step: Step)
    returns (ws': seq<World>, steps': seq<Step>)
    requires HarmlessPath(ws, steps, from) && CanStep(ws[|ws| - 1], step)
    requires |steps| >= from ==> Harmless(ws[|ws| - 1], step)
    ensures HarmlessPath(ws', steps', from) && ws' == ws + [StepTo(ws[|ws| - 1], step)] && steps' == steps + [step]
  {
    ws', steps' := ws + [StepTo(ws[|ws| - 1], step)], steps + [step];
  }

  lemma DanglingIsUnsafe(w: World, id: nat)
    requires IsLive(w, id) && w.problems[id].package.Package? && Archive(id, w.problems[id].package.hash) !in w.objects
    ensures !Safe(w)
  {}

  /** From a row whose archive the running collection may still take, the collection can take it: rejudging the problem
      lifts the protection its submissions would give. */
  lemma CollectUnsheltered(ws: seq<World>, steps: seq<Step>, id: nat)
    returns (ws': seq<World>, steps': seq<Step>)
    requires HarmlessPath(ws, steps, 1) && |steps| >= 1 && IsLive(ws[|ws| - 1], id)
    requires var w := ws[|ws| - 1];
             w.problems[id].package.Package? && !Sheltered(w, Archive(id, w.problems[id].package.hash))
    ensures HarmlessPath(ws', steps', 1) && ws <= ws' && steps <= steps' && !Safe(ws'[|ws'| - 1])
  {
    ws', steps' := ws, steps;
    var key := Archive(id, ws[|ws| - 1].problems[id].package.hash);
    if key in ws[|ws| - 1].objects {
      if ws[|ws| - 1].gc.ReadRows? {
        ws', steps' := Follow(ws', steps', 1, Judge(RejudgeProblem(id)));
        ws', steps' := Follow(ws', steps', 1, GcIds);
      }
      if ws[|ws| - 1].gc.ReadRows? || ws[|ws| - 1].gc.ReadIds? { ws', steps' := Follow(ws', steps', 1, GcList); }
      ws', steps' := Follow(ws', steps', 1, GcDelete(key));
    }
    DanglingIsUnsafe(ws'[|ws'| - 1], id);
  }

  /** From any world the proof reaches, a harmful step can end in a lost archive, all later steps being harmless. */
  lemma HarmIsReal(w: World, step: Step) returns (ws: seq<World>, steps: seq<Step>)
    requires WorldInv(w) && CanStep(w, step) && !Harmless(w, step)
    ensures HarmlessPath(ws, steps, 1) && ws[0] == w && |steps| > 0 && steps[0] == step && !Safe(ws[|ws| - 1])
  {
    ws, steps := Follow([w], [], 1, step);
    var id := if step.Commit? then w.uploads[step.upload].problem else step.save.problem;
    ws, steps := CollectUnsheltered(ws, steps, id);
  }

  /** A step taken from such a world is safe, whatever harmless steps follow, exactly if it is harmless itself. */
  lemma HarmlessIsExact(w: World, step: Step)
    requires WorldInv(w) && CanStep(w, step)
    ensures Harmless(w, step) <==>
              forall ws: seq<World>, steps: seq<Step> |
                HarmlessPath(ws, steps, 1) && ws[0] == w && |steps| > 0 && steps[0] == step :: Safe(ws[|ws| - 1])
  {
    if Harmless(w, step) {
      forall ws: seq<World>, steps: seq<Step> |
        HarmlessPath(ws, steps, 1) && ws[0] == w && |steps| > 0 && steps[0] == step ensures Safe(ws[|ws| - 1])
      {
        assert HarmlessPath(ws, steps, 0);
        HarmlessPathsAreSafe(ws, steps, |ws| - 1);
      }
    } else {
      var ws, steps := HarmIsReal(w, step);
    }
  }

  // ---- what the deployment must respect -----------------------------------

  /** An upload commits at most `limit` after its Put; no Put re-creates a name the running collection is about to
      delete; and a whole-row save brings back no archive that is gone or about to go. */
  ghost predicate Punctual(w: World, step: Step, limit: int)
  {
    match step
    case Put(_, problem, _, next) => next.Package? && w.gc.Listed? ==> !Doomed(w.gc, Archive(problem, next.hash))
    case Commit(upload) => upload in w.uploads ==> w.now <= w.uploads[upload].putAt + limit
    case _ => Harmless(w, step)
  }

  ghost predicate IsHistory(ws: seq<World>, steps: seq<Step>) { IsPath(ws, steps) && ws[0] == START }

  /** Every step but the one numbered `late` is punctual. */
  ghost predicate Story(ws: seq<World>, steps: seq<Step>, limit: int, late: int)
  {
    IsHistory(ws, steps) && forall i | 0 <= i < |steps| && i != late :: Punctual(ws[i], steps[i], limit)
  }

  ghost predicate AllPunctual(ws: seq<World>, steps: seq<Step>, limit: int) { Story(ws, steps, limit, -1) }

  /** A stored archive young enough to commit is in the store, and the running collection leaves it there. */
  ghost predicate UploadsFresh(w: World)
  {
    forall u | u in w.uploads ::
      var up := w.uploads[u];
      && up.next.Package? && up.putAt <= w.now
      && (w.now <= up.putAt + GRACE ==>
            var key := Archive(up.problem, up.next.hash);
            key in w.objects && w.objects[key] >= up.putAt && (w.gc.Listed? ==> Spared(w, key)))
  }

  /** Punctual steps are harmless and keep the uploads fresh. */
  lemma PunctualIsHarmless(w: World, step: Step, limit: int)
    requires WorldInv(w) && UploadsFresh(w) && CanStep(w, step) && Punctual(w, step, limit) && limit <= GRACE
    ensures Harmless(w, step)
  {}

  lemma PunctualKeepsFresh(w: World, step: Step, limit: int)
    requires WorldInv(w) && UploadsFresh(w) && CanStep(w, step) && Punctual(w, step, limit)
    ensures UploadsFresh(StepTo(w, step))
  {}

  /** In every interleaving whose uploads and saves are punctual, no live row and no current task loses its archive. */
  lemma {:induction false} CollectorIsSafe(ws: seq<World>, steps: seq<Step>, limit: int, n: nat)
    requires AllPunctual(ws, steps, limit) && limit <= GRACE && n < |ws|
    ensures WorldInv(ws[n]) && UploadsFresh(ws[n]) && Safe(ws[n])
  {
    if n > 0 {
      CollectorIsSafe(ws, steps, limit, n - 1);
      PunctualIsHarmless(ws[n - 1], steps[n - 1], limit);
      HarmlessKeepsWorld(ws[n - 1], steps[n - 1]);
      PunctualKeepsFresh(ws[n - 1], steps[n - 1], limit);
    }
  }

  /** A whole-row save that finds the package it read is harmless. */
  lemma FreshSaveIsHarmless(w: World, save: RowSave)
    requires WorldInv(w) && Holds(w, save.problem, save.package)
    ensures Harmless(w, EndSave(save))
  {}

  /** Punctual, and a whole-row save ends only where the row holds the package it read: what handlers can check. */
  ghost predicate Careful(w: World, step: Step, limit: int)
  {
    if step.EndSave? then Holds(w, step.save.problem, step.save.package) else Punctual(w, step, limit)
  }

  /** Handlers that check this are safe beside the collector. */
  lemma {:induction false} CarefulHandlersAreSafe(ws: seq<World>, steps: seq<Step>, limit: int, n: nat)
    requires IsHistory(ws, steps) && (forall i | 0 <= i < |steps| :: Careful(ws[i], steps[i], limit))
    requires limit <= GRACE && n < |ws|
    ensures WorldInv(ws[n]) && UploadsFresh(ws[n]) && Safe(ws[n])
  {
    if n > 0 {
      CarefulHandlersAreSafe(ws, steps, limit, n - 1);
      var w, step := ws[n - 1], steps[n - 1];
      if step.EndSave? { FreshSaveIsHarmless(w, step.save); }
      PunctualIsHarmless(w, step, limit);
      HarmlessKeepsWorld(w, step);
      PunctualKeepsFresh(w, step, limit);
    }
  }

  // ---- each premise is needed ---------------------------------------------

  /** A name about to be deleted, put again from the row's current version: from any world the proof reaches, the
      upload can commit at once and then lose its archive. */
  lemma RecreatedNameIsLost(w: World, upload: nat, problem: nat, base: Package, next: Package)
    returns (ws: seq<World>, steps: seq<Step>)
    requires WorldInv(w) && CanStep(w, Put(upload, problem, base, next)) && Holds(w, problem, base)
    requires w.gc.Listed? && Doomed(w.gc, Archive(problem, next.hash))
    ensures IsPath(ws, steps) && ws[0] == w
    ensures steps == [Put(upload, problem, base, next), Commit(upload), GcDelete(Archive(problem, next.hash))]
    ensures Punctual(ws[1], steps[1], 0) && Punctual(ws[2], steps[2], 0) && !Safe(ws[3])
  {
    var key := Archive(problem, next.hash);
    var first, second, third := Put(upload, problem, base, next), Commit(upload), GcDelete(key);
    var put := w.(objects := w.objects[key := w.now],
                  uploads := w.uploads[upload := Upload(problem, base, next, w.now)]);
    var committed := put.(problems := w.problems[problem := Problem(true, next)], uploads := put.uploads - {upload});
    var deleted := committed.(objects := put.objects - {key});
    ws, steps := [w, put, committed, deleted], [first, second, third];
    assert put == StepTo(w, first);
    assert committed == StepTo(put, second);
    assert deleted == StepTo(committed, third);
    DanglingIsUnsafe(deleted, problem);
  }

  lemma Extend(ws: seq<World>, steps: seq<Step>, limit: int, late: int, step: Step, next: World)
    returns (ws': seq<World>, steps': seq<Step>)
    requires Story(ws, steps, limit, late) && CanStep(ws[|ws| - 1], step) && StepTo(ws[|ws| - 1], step) == next
    requires |steps| != late ==> Punctual(ws[|ws| - 1], step, limit)
    ensures Story(ws', steps', limit, late) && ws' == ws + [next] && steps' == steps + [step]
  {
    ws', steps' := ws + [next], steps + [step];
  }

  /** The worlds of the stories below: problem 1 only, and no submissions. */
  function Stage(now: int, package: Package, objects: map<Key, int>, uploads: map<nat, Upload>, saves: set<RowSave>,
                 gc: Collector): World
  {
    World(now, EMPTY, map[], map[1 := Problem(true, package)], objects, uploads, saves, gc)
  }

  const OLD := Archive(1, "h")
  const STORED := map[OLD := 0]
  const NEXT := Package("h", 0)

  /** The problem is created, an archive is stored for it, and a day and more goes by. */
  lemma StoreArchive(limit: int, late: int) returns (ws: seq<World>, steps: seq<Step>)
    requires late < 0 || late >= 3
    ensures Story(ws, steps, limit, late) && |steps| == 3
    ensures ws[|ws| - 1] == Stage(GRACE + 1, NoPackage, STORED, map[1 := Upload(1, NoPackage, NEXT, 0)], {}, Idle)
  {
    var uploads := map[1 := Upload(1, NoPackage, NEXT, 0)];
    ws, steps := Extend([START], [], limit, late, CreateProblem(1), Stage(0, NoPackage, map[], map[], {}, Idle));
    ws, steps := Extend(ws, steps, limit, late, Put(1, 1, NoPackage, NEXT),
                        Stage(0, NoPackage, STORED, uploads, {}, Idle));
    ws, steps := Extend(ws, steps, limit, late, Tick(GRACE + 1),
                        Stage(GRACE + 1, NoPackage, STORED, uploads, {}, Idle));
  }

  /** The collector's phases up to its listing, over a problem without a package and one old archive. */
  lemma CollectTo(ws: seq<World>, steps: seq<Step>, limit: int, late: int, uploads: map<nat, Upload>,
                  saves: set<RowSave>)
    returns (ws': seq<World>, steps': seq<Step>)
    requires Story(ws, steps, limit, late) && (late < 0 || |steps| + 3 <= late)
    requires ws[|ws| - 1] == Stage(GRACE + 1, NoPackage, STORED, uploads, saves, Idle)
    ensures Story(ws', steps', limit, late) && |steps'| == |steps| + 3
    ensures ws'[|ws'| - 1] == Stage(GRACE + 1, NoPackage, STORED, uploads, saves, Listed(1, {}, {}, STORED))
  {
    var w := Stage(GRACE + 1, NoPackage, STORED, uploads, saves, Idle);
    assert KeptKeys(w.problems) == {} && Unreadable(w.problems) == {} && {} + BeingJudged(w.judging.rows) == {};
    ws', steps' := Extend(ws, steps, limit, late, GcRows(1), w.(gc := ReadRows(1, {}, {})));
    ws', steps' := Extend(ws', steps', limit, late, GcIds, w.(gc := ReadIds(1, {}, {})));
    ws', steps' := Extend(ws', steps', limit, late, GcList, w.(gc := Listed(1, {}, {}, STORED)));
  }

  /** If uploads may take longer than the grace period, one that does can find its archive collected. */
  lemma LateCommitLosesArchive(limit: int) returns (ws: seq<World>, steps: seq<Step>)
    requires limit > GRACE
    ensures AllPunctual(ws, steps, limit) && !Safe(ws[|ws| - 1])
  {
    var uploads := map[1 := Upload(1, NoPackage, NEXT, 0)];
    var gc := Listed(1, {}, {}, STORED);
    ws, steps := StoreArchive(limit, -1);
    ws, steps := CollectTo(ws, steps, limit, -1, uploads, {});
    ws, steps := Extend(ws, steps, limit, -1, GcDelete(OLD), Stage(GRACE + 1, NoPackage, map[], uploads, {}, gc));
    ws, steps := Extend(ws, steps, limit, -1, Commit(1), Stage(GRACE + 1, NEXT, map[], map[], {}, gc));
    DanglingIsUnsafe(ws[|ws| - 1], 1);
  }

  /** Histories whose uploads take at most `limit`, all else being punctual, are safe exactly if that is no longer than
      the grace period. */
  lemma GraceIsExact(limit: int)
    ensures limit <= 86_400_000_000_000 <==>
              forall ws: seq<World>, steps: seq<Step>, n: nat | AllPunctual(ws, steps, limit) && n < |ws| :: Safe(ws[n])
  {
    if limit <= GRACE {
      forall ws: seq<World>, steps: seq<Step>, n: nat | AllPunctual(ws, steps, limit) && n < |ws| ensures Safe(ws[n]) {
        CollectorIsSafe(ws, steps, limit, n);
      }
    } else {
      var ws, steps := LateCommitLosesArchive(limit);
      assert !Safe(ws[|ws| - 1]);
    }
  }

  /** A world in which a listed name is about to be deleted can come about. */
  lemma ADoomedName() returns (ws: seq<World>, steps: seq<Step>)
    ensures AllPunctual(ws, steps, GRACE)
    ensures var w := ws[|ws| - 1]; w.gc.Listed? && Doomed(w.gc, OLD) && Holds(w, 1, NoPackage)
  {
    ws, steps := StoreArchive(GRACE, -1);
    ws, steps := CollectTo(ws, steps, GRACE, -1, map[1 := Upload(1, NoPackage, NEXT, 0)], {});
  }

  lemma CommitThenWait(late: int) returns (ws: seq<World>, steps: seq<Step>)
    requires late >= 4
    ensures Story(ws, steps, GRACE, late) && |steps| == 4
    ensures ws[|ws| - 1] == Stage(GRACE + 1, NEXT, STORED, map[], {}, Idle)
  {
    var uploads := map[1 := Upload(1, NoPackage, NEXT, 0)];
    ws, steps := Extend([START], [], GRACE, late, CreateProblem(1), Stage(0, NoPackage, map[], map[], {}, Idle));
    ws, steps := Extend(ws, steps, GRACE, late, Put(1, 1, NoPackage, NEXT),
                        Stage(0, NoPackage, STORED, uploads, {}, Idle));
    ws, steps := Extend(ws, steps, GRACE, late, Commit(1), Stage(0, NEXT, STORED, map[], {}, Idle));
    ws, steps := Extend(ws, steps, GRACE, late, Tick(GRACE + 1), Stage(GRACE + 1, NEXT, STORED, map[], {}, Idle));
  }

  /** A whole-row save begins just before the package is emptied. */
  lemma SaveBegins(late: int) returns (ws: seq<World>, steps: seq<Step>)
    requires late >= 6
    ensures Story(ws, steps, GRACE, late) && |steps| == 6
    ensures ws[|ws| - 1] == Stage(GRACE + 1, NoPackage, STORED, map[], {RowSave(1, NEXT)}, Idle)
  {
    var saves := {RowSave(1, NEXT)};
    ws, steps := CommitThenWait(late);
    ws, steps := Extend(ws, steps, GRACE, late, BeginSave(1), Stage(GRACE + 1, NEXT, STORED, map[], saves, Idle));
    ws, steps := Extend(ws, steps, GRACE, late, Edit(1, NEXT, NoPackage),
                        Stage(GRACE + 1, NoPackage, STORED, map[], saves, Idle));
  }

  /** It ends after the collection, in no time by the clock, and brings back a hash whose archive is gone. */
  lemma StaleSaveLosesArchive() returns (ws: seq<World>, steps: seq<Step>, late: nat)
    ensures Story(ws, steps, GRACE, late) && late < |steps| && steps[late].EndSave? && !Safe(ws[|ws| - 1])
  {
    late := 10;
    var saves := {RowSave(1, NEXT)};
    var gc := Listed(1, {}, {}, STORED);
    ws, steps := SaveBegins(late);
    ws, steps := CollectTo(ws, steps, GRACE, late, map[], saves);
    ws, steps := Extend(ws, steps, GRACE, late, GcDelete(OLD),
                        Stage(GRACE + 1, NoPackage, map[], map[], saves, gc));
    ws, steps := Extend(ws, steps, GRACE, late, EndSave(RowSave(1, NEXT)),
                        Stage(GRACE + 1, NEXT, map[], map[], {}, gc));
    DanglingIsUnsafe(ws[|ws| - 1], 1);
  }

  // ---- and it does collect ------------------------------------------------

  /** The collector's three phases, undisturbed. */
  lemma ListAll(w: World) returns (ws: seq<World>, steps: seq<Step>)
    requires w.gc == Idle
    ensures IsPath(ws, steps) && ws[0] == w && steps == [GcRows(w.now - GRACE), GcIds, GcList]
    ensures ws[|steps|] == w.(gc := Listed(w.now - GRACE, KeptKeys(w.problems),
                                           Unreadable(w.problems) + BeingJudged(w.judging.rows), w.objects))
  {
    hide KeptKeys, Unreadable, BeingJudged;
    var before, keep, stuck := w.now - GRACE, KeptKeys(w.problems), Unreadable(w.problems);
    var protected := stuck + BeingJudged(w.judging.rows);
    ws, steps := GoOn([w], [], GcRows(before), w.(gc := ReadRows(before, keep, stuck)));
    ws, steps := GoOn(ws, steps, GcIds, w.(gc := ReadIds(before, keep, protected)));
    ws, steps := GoOn(ws, steps, GcList, w.(gc := Listed(before, keep, protected, w.objects)));
  }

  /** One undisturbed collection deletes any old archive that no live row names, unless its problem's row is unreadable
      or one of its submissions is being judged. */
  lemma GarbageIsCollected(w: World, key: Key) returns (ws: seq<World>, steps: seq<Step>)
    requires w.gc == Idle && key.Archive? && key in w.objects && w.objects[key] < w.now - 86_400_000_000_000
    requires !(IsLive(w, key.problem) && w.problems[key.problem].package.Package?
               && w.problems[key.problem].package.hash == key.hash)
    requires !(IsLive(w, key.problem) && w.problems[key.problem].package.Corrupt?)
    requires forall s | s in w.judging.rows && w.judging.rows[s].problem == key.problem ::
               !w.judging.rows[s].status.Judging?
    ensures IsPath(ws, steps) && ws[0] == w && steps == [GcRows(w.now - GRACE), GcIds, GcList, GcDelete(key), GcEnd]
    ensures ws[|steps|] == w.(objects := w.objects - {key})
  {
    var before, keep, stuck := w.now - GRACE, KeptKeys(w.problems), Unreadable(w.problems);
    var protected := stuck + BeingJudged(w.judging.rows);
    assert key !in keep && key.problem !in protected;
    hide KeptKeys, Unreadable, BeingJudged;
    var listed := w.(gc := Listed(before, keep, protected, w.objects));
    ws, steps := ListAll(w);
    ws, steps := GoOn(ws, steps, GcDelete(key), listed.(objects := w.objects - {key}));
    ws, steps := GoOn(ws, steps, GcEnd, w.(objects := w.objects - {key}));
  }

  /** So a deleted problem's archive goes. */
  lemma DeletedIsGarbage(w: World, id: nat)
    requires IsLive(w, id)
    ensures CanStep(w, DeleteProblem(id)) && !IsLive(StepTo(w, DeleteProblem(id)), id)
    ensures forall other | other != id :: IsLive(StepTo(w, DeleteProblem(id)), other) == IsLive(w, other)
  {}

  lemma GoOn(ws: seq<World>, steps: seq<Step>, step: Step, next: World) returns (ws': seq<World>, steps': seq<Step>)
    requires IsPath(ws, steps) && CanStep(ws[|steps|], step) && StepTo(ws[|steps|], step) == next
    ensures IsPath(ws', steps') && ws' == ws + [next] && steps' == steps + [step]
  {
    ws', steps' := ws + [next], steps + [step];
  }

  /** An upload given up is forgotten: it can no longer be committed. */
  lemma AbandonedIsForgotten(w: World, upload: nat)
    requires CanStep(w, Abandon(upload))
    ensures !CanStep(StepTo(w, Abandon(upload)), Commit(upload))
    ensures StepTo(w, Abandon(upload)) == w.(uploads := w.uploads - {upload})
  {}
}
