/** What a submission row says, over whole runs of the judging protocol: until when its lease keeps others out, and
    whose verdict it carries. Everything is said in the fields of rows and requests. */
module RowHistory {
  import opened Basics
  import opened Verdicts
  import opened Judging
  import opened Fencing

  // ---- the deadline of a lease --------------------------------------------

  /** The step gives the row a new deadline: a lease of it, or an applied heartbeat. */
  predicate Renews(s: State, a: Action, id: nat)
  {
    || (a.LeaseTx? && a.id == id)
    || (a.Heartbeat? && a.beat.id == id && OutcomeOf(s, a).Applied?)
  }

  /** The step ends the lease: an applied result, a rejudge that covers the row, or the failure of its build. */
  predicate Ends(s: State, a: Action, id: nat)
  {
    || Concludes(s, a, id) || Reopens(s, a, id)
    || (a.BuildFail? && a.lease.id == id && id in s.rows && a.lease.attempt == s.rows[id].attempt)
  }

  predicate Concludes(s: State, a: Action, id: nat) { a.Result? && a.result.id == id && OutcomeOf(s, a).Applied? }

  predicate Reopens(s: State, a: Action, id: nat) { Supersedes(s, a, id) && !a.LeaseTx? }

  /** Step `i` renewed the lease, and no step up to state `n` renewed or ended it. */
  ghost predicate LastRenewal(ss: seq<State>, acts: seq<Action>, i: nat, n: nat, id: nat)
    requires IsRun(ss, acts) && n < |ss|
  {
    && i < n && Renews(ss[i], acts[i], id)
    && forall k | i < k < n :: !Renews(ss[k], acts[k], id) && !Ends(ss[k], acts[k], id)
  }

  /** A lease lasts for 60 seconds from the lease or the last applied heartbeat. */
  lemma {:induction false} DeadlineIsAMinute(ss: seq<State>, acts: seq<Action>, i: nat, n: nat, id: nat)
    requires IsRun(ss, acts) && n < |ss| && LastRenewal(ss, acts, i, n, id)
    requires id in ss[i + 1].rows && ss[i + 1].rows[id].status == Judging
    ensures id in ss[n].rows && ss[n].rows[id].status == Judging
    ensures ss[n].rows[id].until == Some(acts[i].now + 60_000_000_000)
  {
    if i < n - 1 { DeadlineIsAMinute(ss, acts, i, n - 1, id); }
  }

  lemma JudgedBefore(s: State, a: Action, id: nat)
    requires LeasesInForce(s) && Enabled(s, a) && !Renews(s, a, id)
    requires id in Next(s, a).rows && Next(s, a).rows[id].status == Judging
    ensures id in s.rows && s.rows[id].status == Judging && !Ends(s, a, id)
  {
    if a.BuildFail? && a.lease.id == id {
      assert a.lease in s.building;
    }
  }

  /** Every row that is being judged is so since such a step. */
  lemma {:induction false} JudgingWasRenewed(ss: seq<State>, acts: seq<Action>, n: nat, id: nat) returns (i: nat)
    requires IsRun(ss, acts) && n < |ss| && id in ss[n].rows && ss[n].rows[id].status == Judging
    ensures LastRenewal(ss, acts, i, n, id) && id in ss[i + 1].rows && ss[i + 1].rows[id].status == Judging
  {
    hide Next, Inv, Renews, Ends;
    var s, a := ss[n - 1], acts[n - 1];
    assert Enabled(s, a) && ss[n - 1 + 1] == Next(s, a);
    if Renews(s, a, id) {
      i := n - 1;
    } else {
      LeasesStayInForce(ss, acts, n - 1);
      JudgedBefore(s, a, id);
      i := JudgingWasRenewed(ss, acts, n - 1, id);
    }
  }

  lemma LeasesStayInForce(ss: seq<State>, acts: seq<Action>, n: nat)
    requires IsRun(ss, acts) && n < |ss|
    ensures LeasesInForce(ss[n])
  {
    RunKeepsInv(ss, acts, n);
  }

  /** Until 60 seconds after that step nobody is leased the row. From then on, whoever asks is leased it, if no other
      transaction holds it, or a row submitted no later. */
  lemma ExpiredLeaseIsTakenOver(ss: seq<State>, acts: seq<Action>, i: nat, n: nat, id: nat, judger: nat, now: int,
                                locked: set<nat>)
    returns (other: nat)
    requires IsRun(ss, acts) && n < |ss| && LastRenewal(ss, acts, i, n, id) && judger != 0 && id !in locked
    requires id in ss[i + 1].rows && ss[i + 1].rows[id].status == Judging
    ensures now <= acts[i].now + 60_000_000_000 ==> !Enabled(ss[n], LeaseTx(id, judger, now, locked))
    ensures now > acts[i].now + 60_000_000_000 ==>
              && Enabled(ss[n], LeaseTx(other, judger, now, locked)) && id in ss[n].rows && other in ss[n].rows
              && ss[n].rows[other].createdAt <= ss[n].rows[id].createdAt
  {
    DeadlineIsAMinute(ss, acts, i, n, id);
    other := id;
    if now > acts[i].now + 60_000_000_000 { other := SomeRowIsPicked(ss[n].rows, now, locked, id); }
  }

  /** A row in the queue is leased at once, or one submitted no later. */
  lemma QueuedRowIsTaken(s: State, id: nat, judger: nat, now: int, locked: set<nat>) returns (other: nat)
    requires id in s.rows && id !in locked && s.rows[id].status == Queued && judger != 0
    ensures Enabled(s, LeaseTx(other, judger, now, locked)) && other in s.rows
    ensures s.rows[other].createdAt <= s.rows[id].createdAt
  {
    other := SomeRowIsPicked(s.rows, now, locked, id);
  }

  // ---- whose verdict a row carries ----------------------------------------

  /** Step `i` applied a result, and no step up to state `n` applied another or put the row back in the queue. */
  ghost predicate LastResult(ss: seq<State>, acts: seq<Action>, i: nat, n: nat, id: nat)
    requires IsRun(ss, acts) && n < |ss|
  {
    && i < n && Concludes(ss[i], acts[i], id)
    && forall k | i < k < n :: !Concludes(ss[k], acts[k], id) && !Reopens(ss[k], acts[k], id)
  }

  /** The row says what was posted; where no cases were, it keeps those it had. */
  predicate Carries(row: Row, posted: ResultRequest, before: seq<CaseResult>)
  {
    && row.status == posted.status && row.report.score == posted.report.score
    && row.report.message == posted.report.message && row.report.timeMs == posted.report.timeMs
    && row.report.memoryKb == posted.report.memoryKb
    && row.cases == if posted.cases == [] then before else posted.cases
  }

  /** From an applied result until the next one or a rejudge the row carries what was posted: nobody is leased it. */
  lemma {:induction false} PostedVerdictStays(ss: seq<State>, acts: seq<Action>, i: nat, n: nat, id: nat)
    requires IsRun(ss, acts) && n < |ss| && LastResult(ss, acts, i, n, id)
    ensures id in ss[i].rows && id in ss[n].rows
    ensures Carries(ss[n].rows[id], acts[i].result, ss[i].rows[id].cases)
    ensures forall judger, now, locked :: !Enabled(ss[n], LeaseTx(id, judger, now, locked))
    ensures ss[n].rows[id].judger == None && (n == i + 1 ==> ss[n].rows[id].until == None)
  {
    if i < n - 1 { PostedVerdictStays(ss, acts, i, n - 1, id); }
  }

  lemma {:induction false} UnfinishedRowsAreBlank(ss: seq<State>, acts: seq<Action>, n: nat, id: nat)
    requires IsRun(ss, acts) && n < |ss| && id in ss[n].rows
    requires ss[n].rows[id].status == Queued || ss[n].rows[id].status == Judging
    ensures ss[n].rows[id].report == Report(0, "", None, None) && ss[n].rows[id].cases == []
  {
    hide Next, Enabled;
    var s, a := ss[n - 1], acts[n - 1];
    assert Enabled(s, a) && ss[n - 1 + 1] == Next(s, a);
    UnfinishedBefore(s, a, id);
    var row := ss[n].rows[id];
    if row.report != Report(0, "", None, None) || row.cases != [] { UnfinishedRowsAreBlank(ss, acts, n - 1, id); }
  }

  lemma UnfinishedBefore(s: State, a: Action, id: nat)
    requires Enabled(s, a) && id in Next(s, a).rows
    requires Next(s, a).rows[id].status == Queued || Next(s, a).rows[id].status == Judging
    ensures var row := Next(s, a).rows[id];
            || (row.report == Report(0, "", None, None) && row.cases == [])
            || (id in s.rows && (s.rows[id].status == Queued || s.rows[id].status == Judging)
                && s.rows[id].report == row.report && s.rows[id].cases == row.cases)
  {}

  /** Every row of a reachable state is unfinished and blank, or carries the last applied result since its last rejudge,
      if it had one. */
  lemma {:induction false} FinishedRowsCarryAResult(ss: seq<State>, acts: seq<Action>, n: nat, id: nat)
    requires IsRun(ss, acts) && n < |ss| && id in ss[n].rows
    ensures (exists i :: 0 <= i < n && LastResult(ss, acts, i, n, id) && id in ss[i].rows
                         && Carries(ss[n].rows[id], acts[i].result, ss[i].rows[id].cases))
            || ((ss[n].rows[id].status == Queued || ss[n].rows[id].status == Judging)
                && ss[n].rows[id].report == Report(0, "", None, None) && ss[n].rows[id].cases == [])
  {
    if ss[n].rows[id].status == Queued || ss[n].rows[id].status == Judging {
      UnfinishedRowsAreBlank(ss, acts, n, id);
    } else {
      var i := ResultOf(ss, acts, n, id);
      PostedVerdictStays(ss, acts, i, n, id);
    }
  }

  lemma {:induction false} ResultOf(ss: seq<State>, acts: seq<Action>, n: nat, id: nat) returns (i: nat)
    requires IsRun(ss, acts) && n < |ss| && id in ss[n].rows
    requires ss[n].rows[id].status != Queued && ss[n].rows[id].status != Judging
    ensures LastResult(ss, acts, i, n, id)
  {
    if Concludes(ss[n - 1], acts[n - 1], id) {
      i := n - 1;
    } else {
      i := ResultOf(ss, acts, n - 1, id);
    }
  }

  // ---- who may post -------------------------------------------------------

  /** While the lease has neither ended nor passed to another judger, its judger's posts are applied, and so are local
      ones; other judgers' are refused. */
  lemma HolderMayPost(ss: seq<State>, acts: seq<Action>, i: nat, j: nat, lease: Lease)
    requires IsRun(ss, acts) && i < j < |acts| && GrantedAt(ss, acts, i, lease) && Posts(acts[j], TicketOf(lease))
    requires !SupersededBetween(ss, acts, lease.id, i + 1, j)
    requires forall k | i < k < j :: !Ends(ss[k], acts[k], lease.id)
    ensures OutcomeOf(ss[j], acts[j]) ==
            if acts[j].caller == Local || acts[j].caller == Remote(lease.judger) then Applied else Unauthorized
  {
    AttemptsGrow(ss, acts, lease.id, i + 1, j);
    StaysHeld(ss, acts, i, j, lease);
  }

  lemma {:induction false} StaysHeld(ss: seq<State>, acts: seq<Action>, i: nat, j: nat, lease: Lease)
    requires IsRun(ss, acts) && i < j < |ss| && j <= |acts| && GrantedAt(ss, acts, i, lease)
    requires !SupersededBetween(ss, acts, lease.id, i + 1, j)
    requires forall k | i < k < j :: !Ends(ss[k], acts[k], lease.id)
    ensures lease.id in ss[j].rows && ss[j].rows[lease.id].judger == Some(lease.judger) && lease.judger != 0
    ensures ss[j].rows[lease.id].attempt == lease.attempt
  {
    if i < j - 1 { StaysHeld(ss, acts, i, j - 1, lease); }
  }

  // ---- what a submit or a rejudge writes ----------------------------------

  /** A submit writes an empty row, and any row can be rejudged, by itself or with its problem: it is as it was
      submitted, under the next attempt. */
  lemma RowsStartAnew(s: State, id: nat, problem: nat, createdAt: int)
    ensures id != 0 && id !in s.rows ==>
              && Enabled(s, Submit(id, problem, createdAt))
              && Next(s, Submit(id, problem, createdAt)).rows
                 == s.rows[id := Row(problem, createdAt, Queued, Report(0, "", None, None), 0, None, None, [])]
    ensures id in s.rows ==>
              var was := s.rows[id];
              var anew := Row(was.problem, was.createdAt, Queued, Report(0, "", None, None), was.attempt + 1, None,
                              None, []);
              && Enabled(s, RejudgeSubmission(id)) && Next(s, RejudgeSubmission(id)).rows == s.rows[id := anew]
              && Enabled(s, RejudgeProblem(was.problem)) && id in Next(s, RejudgeProblem(was.problem)).rows
              && Next(s, RejudgeProblem(was.problem)).rows[id] == anew
  {}

  // ---- where progress comes from ------------------------------------------

  /** The step reports this progress: a finished build, or an applied heartbeat that names a stage. */
  predicate Reports(s: State, a: Action, p: Progress)
  {
    || (a.BuildOk? && p == Progress(a.lease.id, a.lease.attempt, "leased", 0, None))
    || (a.Heartbeat? && OutcomeOf(s, a).Applied? && a.beat.stage != ""
        && p == Progress(a.beat.id, a.beat.attempt, a.beat.stage, a.beat.done, a.beat.total))
  }

  /** Every record saved or yet to be saved was reported, in one of six stages; and every report is to be saved. */
  lemma {:induction false} ProgressWasReported(ss: seq<State>, acts: seq<Action>, n: nat, p: Progress) returns (i: nat)
    requires IsRun(ss, acts) && n < |ss| && (p in ss[n].saves || (p.id in ss[n].cache && ss[n].cache[p.id] == p))
    ensures i < n && Reports(ss[i], acts[i], p)
    ensures p.stage in {"leased", "download", "prepare", "compile", "judge", "upload"}
    ensures p.done >= 0 && (p.total.Some? ==> p.total.value >= 0)
  {
    if p in ss[n - 1].saves || (p.id in ss[n - 1].cache && ss[n - 1].cache[p.id] == p) {
      i := ProgressWasReported(ss, acts, n - 1, p);
    } else {
      i := n - 1;
    }
  }

  /** A save that lands replaces the record, and is shown if it is of a live row's present attempt; a dropped record is
      not. */
  lemma LandedSavesAreShown(s: State, save: Progress)
    requires save in s.saves && save.id in s.rows
    ensures var t := Next(s, SaveLands(save));
            t == s.(saves := s.saves - {save}, cache := s.cache[save.id := save])
            && (Live(s.rows[save.id].status) && save.attempt == s.rows[save.id].attempt >= 1 ==>
                  Shown(t, save.id) == Some(save))
    ensures Next(s, CacheDrop(save.id)) == s.(cache := s.cache - {save.id})
            && Shown(Next(s, CacheDrop(save.id)), save.id) == None
  {}

  lemma ReportsAreSaved(ss: seq<State>, acts: seq<Action>, i: nat, p: Progress)
    requires IsRun(ss, acts) && i < |acts| && Reports(ss[i], acts[i], p)
    ensures p in ss[i + 1].saves
  {
    RunKeepsInv(ss, acts, i);
  }
}
