/** What the attempt number buys, over whole runs of the judging protocol. */
module Fencing {
  import opened Basics
  import opened Verdicts
  import opened Judging

  lemma {:induction false} RunKeepsInv(ss: seq<State>, acts: seq<Action>, n: nat)
    requires IsRun(ss, acts) && n < |ss|
    ensures Inv(ss[n])
  {
    if n > 0 {
      RunKeepsInv(ss, acts, n - 1);
      StepKeepsInv(ss[n - 1], acts[n - 1]);
    }
  }

  /** The step gives row `id` a new attempt: a lease of it, or a rejudge that covers it. */
  predicate Supersedes(s: State, a: Action, id: nat)
  {
    || (a.LeaseTx? && a.id == id)
    || (a.RejudgeSubmission? && a.id == id)
    || (a.RejudgeProblem? && id in s.rows && s.rows[id].problem == a.problem)
  }

  ghost predicate SupersededBetween(ss: seq<State>, acts: seq<Action>, id: nat, from: nat, to: nat)
    requires IsRun(ss, acts) && to <= |acts|
  {
    exists k | from <= k < to :: Supersedes(ss[k], acts[k], id)
  }

  lemma StepAttempt(s: State, a: Action, id: nat)
    requires Enabled(s, a) && id in s.rows
    ensures id in Next(s, a).rows
    ensures Next(s, a).rows[id].attempt == s.rows[id].attempt + if Supersedes(s, a, id) then 1 else 0
  {}

  /** Attempts never fall, and they rise exactly where a step supersedes the row. */
  lemma {:induction false} AttemptsGrow(ss: seq<State>, acts: seq<Action>, id: nat, i: nat, j: nat)
    requires IsRun(ss, acts) && i <= j < |ss| && id in ss[i].rows
    ensures id in ss[j].rows && ss[i].rows[id].attempt <= ss[j].rows[id].attempt
    ensures SupersededBetween(ss, acts, id, i, j) <==> ss[i].rows[id].attempt < ss[j].rows[id].attempt
  {
    if i < j {
      AttemptsGrow(ss, acts, id, i, j - 1);
      var s, a := ss[j - 1], acts[j - 1];
      StepAttempt(s, a, id);
      assert SupersededBetween(ss, acts, id, i, j) <==>
        SupersededBetween(ss, acts, id, i, j - 1) || Supersedes(s, a, id);
    }
  }

  // ---- where tickets come from --------------------------------------------

  /** Step `i` of the run is the transaction that granted `lease`. */
  predicate GrantedAt(ss: seq<State>, acts: seq<Action>, i: nat, lease: Lease)
    requires |ss| == |acts| + 1 && i < |acts|
  {
    && acts[i].LeaseTx? && acts[i].id == lease.id && acts[i].judger == lease.judger
    && lease.id in ss[i + 1].rows && ss[i + 1].rows[lease.id].attempt == lease.attempt
  }

  lemma {:induction false} LeaseWasGranted(ss: seq<State>, acts: seq<Action>, n: nat, lease: Lease) returns (i: nat)
    requires IsRun(ss, acts) && n < |ss| && lease in ss[n].building
    ensures i < n && GrantedAt(ss, acts, i, lease)
  {
    if lease in ss[n - 1].building {
      i := LeaseWasGranted(ss, acts, n - 1, lease);
    } else {
      i := n - 1;
    }
  }

  /** Every ticket was granted by one lease transaction and handed out by one finished build after it. */
  lemma {:induction false} TicketWasHandedOut(ss: seq<State>, acts: seq<Action>, n: nat, t: Ticket)
    returns (i: nat, m: nat, lease: Lease)
    requires IsRun(ss, acts) && n < |ss| && t in ss[n].handed
    ensures i < m < n && acts[m] == BuildOk(lease) && TicketOf(lease) == t && GrantedAt(ss, acts, i, lease)
  {
    if t in ss[n - 1].handed {
      i, m, lease := TicketWasHandedOut(ss, acts, n - 1, t);
    } else {
      m, lease := n - 1, acts[n - 1].lease;
      i := LeaseWasGranted(ss, acts, m, lease);
    }
  }

  lemma {:induction false} HandedOnlyGrows(ss: seq<State>, acts: seq<Action>, i: nat, j: nat)
    requires IsRun(ss, acts) && i <= j < |ss|
    ensures ss[i].handed <= ss[j].handed
  {
    if i < j { HandedOnlyGrows(ss, acts, i, j - 1); }
  }

  /** No two hand-outs of a run give away the same attempt of the same submission. */
  lemma HandOutsAreDistinct(ss: seq<State>, acts: seq<Action>, i: nat, j: nat)
    requires IsRun(ss, acts) && i < j < |acts| && acts[i].BuildOk? && acts[j].BuildOk?
    ensures TicketOf(acts[i].lease) != TicketOf(acts[j].lease)
  {
    HandedOnlyGrows(ss, acts, i + 1, j);
    RunKeepsInv(ss, acts, j);
  }

  // ---- what a post can change ---------------------------------------------

  predicate Posts(a: Action, t: Ticket)
  {
    || (a.Heartbeat? && Ticket(a.beat.id, a.beat.attempt) == t)
    || (a.Result? && Ticket(a.result.id, a.result.attempt) == t)
  }

  function OutcomeOf(s: State, a: Action): Outcome
    requires a.Heartbeat? || a.Result?
  {
    match a
    case Heartbeat(caller, beat, _) => PostOutcome(s.rows, caller, beat.id, beat.attempt)
    case Result(caller, result) => PostOutcome(s.rows, caller, result.id, result.attempt)
  }

  /** Fencing: a heartbeat or a result is ignored exactly when the submission was leased again or rejudged
      since the lease it speaks for; and an ignored or refused one changes no row. */
  lemma PostIsFenced(ss: seq<State>, acts: seq<Action>, i: nat, j: nat, lease: Lease)
    requires IsRun(ss, acts) && i < j < |acts| && GrantedAt(ss, acts, i, lease) && Posts(acts[j], TicketOf(lease))
    ensures OutcomeOf(ss[j], acts[j]).Ignored? <==> SupersededBetween(ss, acts, lease.id, i + 1, j)
    ensures !OutcomeOf(ss[j], acts[j]).Applied? ==> ss[j + 1] == ss[j]
  {
    AttemptsGrow(ss, acts, lease.id, i + 1, j);
  }

  /** The row a post updates is never queued, and the poster's attempt is the latest anyone was handed or leased. */
  lemma AppliedPostIsLatest(s: State, a: Action, t: Ticket)
    requires Inv(s) && Enabled(s, a) && Posts(a, t) && OutcomeOf(s, a).Applied?
    ensures t.id in s.rows && s.rows[t.id].attempt == t.attempt && !s.rows[t.id].status.Queued?
    ensures forall u | u in s.handed && u.id == t.id :: u.attempt <= t.attempt
    ensures forall l | l in s.building && l.id == t.id :: l.attempt < t.attempt
    ensures forall id | id in s.rows && id != t.id :: id in Next(s, a).rows && Next(s, a).rows[id] == s.rows[id]
  {}

  /** The guarded reset after a failed build takes effect exactly when nothing superseded the failed lease. */
  lemma ResetIsFenced(ss: seq<State>, acts: seq<Action>, i: nat, j: nat, lease: Lease)
    requires IsRun(ss, acts) && i < j < |acts| && GrantedAt(ss, acts, i, lease) && acts[j] == BuildFail(lease)
    ensures ss[j + 1].rows != ss[j].rows <==> !SupersededBetween(ss, acts, lease.id, i + 1, j)
  {
    AttemptsGrow(ss, acts, lease.id, i + 1, j);
    RunKeepsInv(ss, acts, j);
    if StillLeased(ss[j].rows[lease.id], lease) {
      assert ss[j + 1].rows[lease.id].status != ss[j].rows[lease.id].status;
    }
  }

  // ---- a finished attempt -------------------------------------------------

  lemma {:induction false} SettledStaysUnowned(ss: seq<State>, acts: seq<Action>, t: Ticket, i: nat, j: nat)
    requires IsRun(ss, acts) && i <= j < |ss| && t.id in ss[i].rows
    requires ss[i].rows[t.id].attempt == t.attempt && ss[i].rows[t.id].judger.None?
    ensures t.id in ss[j].rows
    ensures ss[j].rows[t.id].attempt == t.attempt ==> ss[j].rows[t.id].judger.None?
  {
    if i < j {
      SettledStaysUnowned(ss, acts, t, i, j - 1);
      AttemptsGrow(ss, acts, t.id, i, j - 1);
    }
  }

  /** After an applied result, a further post for the same attempt is ignored once the row was superseded;
      before that it is refused to judgers with a token, and applied again for a local one. */
  lemma PostAfterResult(ss: seq<State>, acts: seq<Action>, t: Ticket, i: nat, j: nat)
    requires IsRun(ss, acts) && i < j < |acts| && acts[i].Result? && Posts(acts[i], t) && Posts(acts[j], t)
    requires OutcomeOf(ss[i], acts[i]).Applied?
    ensures OutcomeOf(ss[j], acts[j]) ==
            if SupersededBetween(ss, acts, t.id, i + 1, j) then Ignored
            else if acts[j].caller.Local? then Applied else Unauthorized
  {
    AttemptsGrow(ss, acts, t.id, i + 1, j);
    SettledStaysUnowned(ss, acts, t, i + 1, j);
  }

  // ---- cases and progress as users see them -------------------------------

  /** What `submissionProgress` shows: the cached record, for a live row, if it names the row's attempt. */
  function Shown(s: State, id: nat): Option<Progress>
    requires id in s.rows
  {
    if Live(s.rows[id].status) && s.rows[id].attempt > 0 && id in s.cache && s.cache[id].attempt == s.rows[id].attempt
    then Some(s.cache[id]) else None
  }

  /** Exactly a live row's record for its present attempt is shown. */
  lemma ShownIsCached(s: State, id: nat, p: Progress)
    requires id in s.rows
    ensures Shown(s, id) == Some(p) <==>
              && (s.rows[id].status == Queued || s.rows[id].status == Judging)
              && id in s.cache && s.cache[id] == p && p.attempt == s.rows[id].attempt >= 1
  {}

  /** In every reachable state, however saves and deletes of progress were reordered: shown progress was
      reported under the row's current lease, a queued row shows none, a live row has no case rows, and the
      case numbers of a finished row are exactly 1..n. */
  lemma WhatUsersSee(ss: seq<State>, acts: seq<Action>, n: nat, id: nat)
    requires IsRun(ss, acts) && n < |ss| && id in ss[n].rows
    ensures var s := ss[n]; var row := s.rows[id];
            && (Shown(s, id).Some? ==> row.status.Judging? && Ticket(id, row.attempt) in s.handed
                                       && Shown(s, id).value.id == id && Shown(s, id).value.attempt == row.attempt)
            && (Live(row.status) ==> row.cases == [])
            && NumbersAreOneToN(row.cases)
  {
    RunKeepsInv(ss, acts, n);
  }
}
