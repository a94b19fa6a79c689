/** The submissions table and the handlers that update it, each transaction against its specification. */
module SubmissionStore {
  import opened Basics
  import opened Verdicts
  import opened Judging

  /** The two ways a malformed request is refused. */
  datatype Refusal = BadRequest | TooLarge

  /** `validateResult`: the checks in the source's order, with the set of case numbers seen so far. */
  method ValidateResult(req: ResultRequest) returns (refused: Option<Refusal>)
    ensures refused.None? <==> ValidResult(req)
    ensures refused == Some(TooLarge) ==>
      || req.messageBytes > MAX_MESSAGE_BYTES || |req.cases| > MAX_CASES
      || exists i | 0 <= i < |req.cases| :: req.cases[i].messageRunes > MAX_CASE_MESSAGE_RUNES
  {
    if req.id == 0 || req.attempt <= 0 || !ValidVerdict(req.status) || req.report.score < 0 {
      return Some(BadRequest);
    }
    if req.messageBytes > MAX_MESSAGE_BYTES { return Some(TooLarge); }
    if !UsageWithin(req.report.timeMs, MAX_TIME_MS) || !UsageWithin(req.report.memoryKb, MAX_MEMORY_KB) {
      return Some(BadRequest);
    }
    if |req.cases| > MAX_CASES { return Some(TooLarge); }
    var seen: set<int> := {};
    for i := 0 to |req.cases|
      invariant forall n :: n in seen <==> exists k | 0 <= k < i :: req.cases[k].no == n
      invariant forall k | 0 <= k < i :: ValidCase(req.cases[k])
      invariant forall k | 0 <= k < i :: 0 < req.cases[k].no <= |req.cases|
      invariant forall j, k | 0 <= j < k < i :: req.cases[j].no != req.cases[k].no
    {
      var item := req.cases[i];
      if item.no <= 0 || item.no > |req.cases| { return Some(BadRequest); }
      if item.no in seen {
        assert exists k | 0 <= k < i :: req.cases[k].no == req.cases[i].no;
        return Some(BadRequest);
      }
      seen := seen + {item.no};
      if !ValidVerdict(item.status) { return Some(BadRequest); }
      if item.id == "" || |item.id| > MAX_CASE_ID || item.score < 0
         || !UsageWithin(item.timeMs, MAX_TIME_MS) || !UsageWithin(item.memoryKb, MAX_MEMORY_KB) {
        return Some(BadRequest);
      }
      if item.messageRunes > MAX_CASE_MESSAGE_RUNES { return Some(TooLarge); }
    }
    return None;
  }

  class Store {
    var rows: Rows

    constructor ()
      ensures rows == map[]
    {
      rows := map[];
    }

    method Submit(id: nat, problem: nat, createdAt: int)
      requires id !in rows
      modifies this
      ensures rows == old(rows)[id := Row(problem, createdAt, Queued, Report(0, "", None, None), 0, None, None, [])]
    {
      rows := rows[id := NewRow(problem, createdAt)];
    }

    /** The transaction of `tryLease`: no row is leased only if none waits; otherwise an oldest one is. */
    method LeaseTx(judger: nat, now: int, locked: set<nat>) returns (leased: Option<Lease>)
      modifies this
      ensures leased.None? ==> rows == old(rows) && forall id | id in rows && id !in locked :: !Leasable(rows[id], now)
      ensures leased.Some? ==> Picks(old(rows), now, locked, leased.value.id)
                               && rows == LeaseRows(old(rows), leased.value.id, judger, now)
                               && StillLeased(rows[leased.value.id], leased.value) && leased.value.judger == judger
      // nothing waits: every unlocked row is finished, or being judged before its deadline
      ensures leased.None? ==> forall id | id in rows && id !in locked ::
        && rows[id].status != Queued
        && (rows[id].status == Judging ==> rows[id].until.Some? && now <= rows[id].until.value)
      // the leased row was queued, or its deadline had passed; it is the judger's for 60 seconds
      ensures leased.Some? ==>
        var id := leased.value.id;
        var was := old(rows)[id];
        && id !in locked && (was.status == Judging ==> was.until.None? || was.until.value < now)
        && (was.status == Queued || was.status == Judging)
        && (forall other | other in old(rows) && other !in locked && old(rows)[other].createdAt < was.createdAt ::
              && old(rows)[other].status != Queued
              && (old(rows)[other].status == Judging ==>
                    old(rows)[other].until.Some? && now <= old(rows)[other].until.value))
        && rows == old(rows)[id := Row(was.problem, was.createdAt, Judging, was.report, was.attempt + 1, Some(judger),
                                       Some(now + 60_000_000_000), was.cases)]
        && leased.value == Lease(id, was.attempt + 1, judger)
    {
      var waiting := set id | id in rows && id !in locked && Leasable(rows[id], now);
      if waiting == {} {
        assert forall id | id in rows && id !in locked && Leasable(rows[id], now) :: id in waiting;
        return None;
      }
      ghost var oldest := OldestExists(rows, waiting);
      assert Picks(rows, now, locked, oldest);
      var id :| id in waiting && Picks(rows, now, locked, id);
      var row := rows[id];
      var attempt := row.attempt + 1;
      rows := rows[id := row.(status := Judging, attempt := attempt, judger := Some(judger),
                              until := Some(now + LEASE))];
      return Some(Lease(id, attempt, judger));
    }

    method ResetLease(lease: Lease)
      modifies this
      ensures rows == ResetRows(old(rows), lease)
    {
      if lease.id in rows && rows[lease.id].status.Judging? && rows[lease.id].attempt == lease.attempt
         && rows[lease.id].judger == Some(lease.judger) {
        rows := rows[lease.id := rows[lease.id].(status := Queued, judger := None, until := None)];
      }
    }

    /** `tryLease` run without interference: a failed build leaves the picked row queued under a fresh attempt
        and every other row alone; nothing happens only if no unlocked row waits. */
    method TryLease(judger: nat, now: int, locked: set<nat>, built: bool) returns (leased: Option<Lease>)
      modifies this
      ensures leased.Some? ==> built && Picks(old(rows), now, locked, leased.value.id)
                               && rows == LeaseRows(old(rows), leased.value.id, judger, now)
      ensures leased.None? && rows == old(rows) ==> forall id | id in rows && id !in locked :: !Leasable(rows[id], now)
      ensures leased.None? && rows != old(rows) ==> !built && exists id ::
        Picks(old(rows), now, locked, id)
        && rows == old(rows)[id := old(rows)[id].(status := Queued, attempt := old(rows)[id].attempt + 1,
                                                  judger := None, until := None)]
      ensures leased.None? && rows == old(rows) ==> forall id | id in rows && id !in locked ::
        && rows[id].status != Queued
        && (rows[id].status == Judging ==> rows[id].until.Some? && now <= rows[id].until.value)
      ensures leased.Some? ==>
        var id := leased.value.id;
        var was := old(rows)[id];
        && rows[id].status == Judging && rows[id].attempt == was.attempt + 1 == leased.value.attempt
        && rows[id].judger == Some(judger) && rows[id].until == Some(now + 60_000_000_000)
        && (was.status == Queued || (was.status == Judging && (was.until.None? || was.until.value < now)))
    {
      leased := LeaseTx(judger, now, locked);
      if leased.Some? && !built {
        ResetLease(leased.value);
        assert rows == old(rows)[leased.value.id := rows[leased.value.id]];
        leased := None;
      }
    }

    /** `heartbeat` for the task named in the URL. */
    method Heartbeat(task: nat, caller: Caller, req: HeartbeatRequest, now: int) returns (outcome: Outcome)
      modifies this
      ensures outcome == if task != req.id then Ignored else PostOutcome(old(rows), caller, req.id, req.attempt)
      ensures rows == if task != req.id then old(rows) else HeartbeatRows(old(rows), caller, req, now)
      ensures outcome.Applied? ==>
        rows == old(rows)[req.id := old(rows)[req.id].(until := Some(now + 60_000_000_000))]
      ensures !outcome.Applied? ==> rows == old(rows)
    {
      if task != req.id || req.id !in rows { return Ignored; }
      var submission := rows[req.id];
      if submission.attempt != req.attempt { return Ignored; }
      if !Owns(caller, submission) { return Unauthorized; }
      rows := rows[req.id := submission.(until := Some(now + LEASE))];
      return Applied;
    }

    /** `result` for the task named in the URL: the verdict always lands, case rows only when some were sent. */
    method Result(task: nat, caller: Caller, req: ResultRequest) returns (outcome: Outcome)
      modifies this
      ensures outcome == if task != req.id then Ignored else PostOutcome(old(rows), caller, req.id, req.attempt)
      ensures rows == if task != req.id then old(rows) else ResultRows(old(rows), caller, req)
      // what was posted is what is stored, in the row of the attempt it was posted for
      ensures outcome.Applied? ==>
        var was := old(rows)[req.id];
        && was.attempt == req.attempt
        && rows == old(rows)[req.id := Row(was.problem, was.createdAt, req.status,
                                           Report(req.report.score, req.report.message, req.report.timeMs,
                                                  req.report.memoryKb),
                                           was.attempt, None, None, if req.cases == [] then was.cases else req.cases)]
      ensures !outcome.Applied? ==> rows == old(rows)
    {
      if task != req.id || req.id !in rows { return Ignored; }
      var submission := rows[req.id];
      if submission.attempt != req.attempt { return Ignored; }
      if !Owns(caller, submission) { return Unauthorized; }
      rows := rows[req.id := submission.(status := req.status, report := req.report, judger := None, until := None)];
      if |req.cases| > 0 {
        rows := rows[req.id := rows[req.id].(cases := req.cases)];
      }
      return Applied;
    }

    method RejudgeSubmission(id: nat) returns (found: bool)
      modifies this
      ensures found == (id in old(rows))
      ensures rows == RejudgeRows(old(rows), {id})
      ensures found ==>
        var was := old(rows)[id];
        rows == old(rows)[id := Row(was.problem, was.createdAt, Queued, Report(0, "", None, None), was.attempt + 1,
                                    None, None, [])]
    {
      if id !in rows {
        assert rows == RejudgeRows(rows, {id});
        return false;
      }
      rows := rows[id := rows[id].(cases := [])];
      rows := rows[id := Rejudged(rows[id])];
      return true;
    }

    method RejudgeProblem(problem: nat) returns (count: nat)
      modifies this
      ensures count == |OfProblem(old(rows), problem)|
      ensures rows == RejudgeRows(old(rows), OfProblem(old(rows), problem))
      ensures rows.Keys == old(rows).Keys && forall id | id in rows ::
        var was := old(rows)[id];
        rows[id] == if was.problem != problem then was
                    else Row(problem, was.createdAt, Queued, Report(0, "", None, None), was.attempt + 1, None, None, [])
    {
      var ids := set id | id in rows && rows[id].problem == problem;
      count := |ids|;
      if count == 0 {
        assert rows == RejudgeRows(rows, ids);
      } else {
        rows := map id | id in rows :: if id in ids then Rejudged(rows[id]) else rows[id];
      }
    }
  }
}
