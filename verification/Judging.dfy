/** The judging protocol over submission rows, one database transaction per step.

    A judger leases the oldest waiting row, which raises the row's attempt number and marks it judging
    for 60 seconds; the payload is built after that transaction, and only then handed to the judger. A
    heartbeat or a result names the attempt it speaks for. A rejudge puts rows back in the queue and
    raises their attempt. Cached progress records are written after the transactions commit, in any order. */
module Judging {
  import opened Basics
  import opened Verdicts

  const SECOND := 1_000_000_000
  const LEASE := 60 * SECOND

  // ---- rows and requests --------------------------------------------------

  datatype CaseResult = CaseResult(no: int, id: string, status: Status, score: int,
                                   timeMs: Option<int>, memoryKb: Option<int>, messageRunes: nat)

  datatype Report = Report(score: int, message: string, timeMs: Option<int>, memoryKb: Option<int>)

  const NO_REPORT := Report(0, "", None, None)

  datatype Row = Row(problem: nat, createdAt: int, status: Status, report: Report, attempt: nat,
                     judger: Option<nat>, until: Option<int>, cases: seq<CaseResult>)

  type Rows = map<nat, Row>

  /** A direct loopback connection, or a judger that authenticated with its own token. */
  datatype Caller = Local | Remote(judger: nat)

  datatype HeartbeatRequest = HeartbeatRequest(id: nat, attempt: int, stage: string, done: int, total: Option<int>)

  datatype ResultRequest = ResultRequest(id: nat, attempt: int, status: Status, report: Report, messageBytes: nat,
                                         cases: seq<CaseResult>)

  /** How a transaction of `heartbeat` or `result` ends: no row changed, access refused, or the row updated. */
  datatype Outcome = Ignored | Unauthorized | Applied

  // ---- what each transaction does to the rows -----------------------------

  predicate Leasable(row: Row, now: int)
  {
    row.status.Queued? || (row.status.Judging? && (row.until.None? || row.until.value < now))
  }

  /** The query of `tryLease`: the oldest leasable row that no other transaction holds. */
  predicate Picks(rows: Rows, now: int, locked: set<nat>, id: nat)
  {
    && id in rows && id !in locked && Leasable(rows[id], now)
    && forall other | other in rows && other !in locked && Leasable(rows[other], now) ::
         rows[id].createdAt <= rows[other].createdAt
  }

  /** Some row is oldest among those a query may pick, if any may be picked. */
  lemma {:induction false} OldestExists(rows: Rows, among: set<nat>) returns (oldest: nat)
    requires among <= rows.Keys && among != {}
    ensures oldest in among && forall id | id in among :: rows[oldest].createdAt <= rows[id].createdAt
    decreases |among|
  {
    var one :| one in among;
    if among == {one} {
      oldest := one;
    } else {
      oldest := OldestExists(rows, among - {one});
      if rows[one].createdAt < rows[oldest].createdAt { oldest := one; }
    }
  }

  /** A waiting row that no other transaction holds is picked, or one submitted no later. */
  lemma SomeRowIsPicked(rows: Rows, now: int, locked: set<nat>, id: nat) returns (picked: nat)
    requires id in rows && id !in locked && Leasable(rows[id], now)
    ensures Picks(rows, now, locked, picked) && rows[picked].createdAt <= rows[id].createdAt
  {
    var waiting := set other | other in rows && other !in locked && Leasable(rows[other], now);
    assert id in waiting;
    picked := OldestExists(rows, waiting);
  }

  function LeaseRows(rows: Rows, id: nat, judger: nat, now: int): Rows
    requires id in rows
  {
    rows[id := rows[id].(status := Judging, attempt := rows[id].attempt + 1,
                         judger := Some(judger), until := Some(now + LEASE))]
  }

  /** The update after a failed payload build; its guard names the very lease that failed. */
  function ResetRows(rows: Rows, lease: Lease): Rows
  {
    if lease.id in rows && StillLeased(rows[lease.id], lease)
    then rows[lease.id := rows[lease.id].(status := Queued, judger := None, until := None)]
    else rows
  }

  predicate StillLeased(row: Row, lease: Lease)
  {
    row.status.Judging? && row.attempt == lease.attempt && row.judger == Some(lease.judger)
  }

  predicate Owns(caller: Caller, row: Row)
  {
    caller.Local? || (caller.judger != 0 && row.judger == Some(caller.judger))
  }

  function PostOutcome(rows: Rows, caller: Caller, id: nat, attempt: int): Outcome
  {
    if id !in rows || rows[id].attempt != attempt then Ignored
    else if !Owns(caller, rows[id]) then Unauthorized
    else Applied
  }

  function HeartbeatRows(rows: Rows, caller: Caller, req: HeartbeatRequest, now: int): Rows
  {
    if PostOutcome(rows, caller, req.id, req.attempt).Applied?
    then rows[req.id := rows[req.id].(until := Some(now + LEASE))]
    else rows
  }

  function ResultRows(rows: Rows, caller: Caller, req: ResultRequest): Rows
  {
    if PostOutcome(rows, caller, req.id, req.attempt).Applied?
    then rows[req.id := rows[req.id].(status := req.status, report := req.report, judger := None, until := None,
                                      cases := if req.cases == [] then rows[req.id].cases else req.cases)]
    else rows
  }

  function Rejudged(row: Row): Row
  {
    row.(status := Queued, report := NO_REPORT, attempt := row.attempt + 1, judger := None, until := None, cases := [])
  }

  function RejudgeRows(rows: Rows, ids: set<nat>): Rows
  {
    map id | id in rows :: if id in ids then Rejudged(rows[id]) else rows[id]
  }

  function NewRow(problem: nat, createdAt: int): Row
  {
    Row(problem, createdAt, Queued, NO_REPORT, 0, None, None, [])
  }

  // ---- request validation -------------------------------------------------

  const MAX_CASES := 10_000
  const MAX_MESSAGE_BYTES := 256 * 1024
  const MAX_TIME_MS := 2 * 60_000
  const MAX_MEMORY_KB := 4096 * 1024
  const MAX_CASE_MESSAGE_RUNES := 1024
  const MAX_CASE_ID := 128

  predicate UsageWithin(value: Option<int>, max: int) { value.Some? ==> 0 <= value.value <= max }

  predicate ValidCase(item: CaseResult)
  {
    && ValidVerdict(item.status)
    && 0 < |item.id| <= MAX_CASE_ID && item.score >= 0
    && UsageWithin(item.timeMs, MAX_TIME_MS) && UsageWithin(item.memoryKb, MAX_MEMORY_KB)
    && item.messageRunes <= MAX_CASE_MESSAGE_RUNES
  }

  predicate ValidResult(req: ResultRequest)
  {
    && req.id != 0 && req.attempt > 0 && ValidVerdict(req.status) && req.report.score >= 0
    && req.messageBytes <= MAX_MESSAGE_BYTES
    && UsageWithin(req.report.timeMs, MAX_TIME_MS) && UsageWithin(req.report.memoryKb, MAX_MEMORY_KB)
    && |req.cases| <= MAX_CASES
    && (forall i | 0 <= i < |req.cases| :: ValidCase(req.cases[i]))
    && (forall i | 0 <= i < |req.cases| :: 0 < req.cases[i].no <= |req.cases|)
    && (forall i, j | 0 <= i < j < |req.cases| :: req.cases[i].no != req.cases[j].no)
  }

  predicate ValidStage(stage: string)
  {
    stage in {"leased", "download", "prepare", "compile", "judge", "upload"}
  }

  predicate ValidHeartbeat(req: HeartbeatRequest)
  {
    && req.id != 0 && req.attempt > 0 && (req.stage == "" || ValidStage(req.stage))
    && req.done >= 0 && (req.total.Some? ==> req.total.value >= 0)
  }

  /** The checks in figures. */
  lemma ValidResultMeans(req: ResultRequest)
    ensures ValidResult(req) <==>
      && req.id != 0 && req.attempt >= 1 && req.status in {AC, CE, WA, PE, TLE, MLE, OLE, RE, SE}
      && req.report.score >= 0 && req.messageBytes <= 262_144 && |req.cases| <= 10_000
      && (req.report.timeMs.Some? ==> 0 <= req.report.timeMs.value <= 120_000)
      && (req.report.memoryKb.Some? ==> 0 <= req.report.memoryKb.value <= 4_194_304)
      && (forall i | 0 <= i < |req.cases| ::
            var item := req.cases[i];
            && item.status in {AC, CE, WA, PE, TLE, MLE, OLE, RE, SE} && item.id != "" && |item.id| <= 128
            && item.score >= 0 && item.messageRunes <= 1024 && 1 <= item.no <= |req.cases|
            && (item.timeMs.Some? ==> 0 <= item.timeMs.value <= 120_000)
            && (item.memoryKb.Some? ==> 0 <= item.memoryKb.value <= 4_194_304))
      && (forall i, j | 0 <= i < j < |req.cases| :: req.cases[i].no != req.cases[j].no)
  {
    forall status: Status ensures ValidVerdict(status) <==> status in {AC, CE, WA, PE, TLE, MLE, OLE, RE, SE} {}
  }

  lemma ValidHeartbeatMeans(req: HeartbeatRequest)
    ensures ValidHeartbeat(req) <==>
      && req.id != 0 && req.attempt >= 1 && req.done >= 0 && (req.total.Some? ==> req.total.value >= 0)
      && req.stage in {"", "leased", "download", "prepare", "compile", "judge", "upload"}
  {}

  function Numbers(cases: seq<CaseResult>): set<int> { set i | 0 <= i < |cases| :: cases[i].no }

  function OneTo(n: nat): set<int> { if n == 0 then {} else OneTo(n - 1) + {n} }

  /** The numbers of the stored cases are exactly 1..n, each once. */
  predicate NumbersAreOneToN(cases: seq<CaseResult>)
  {
    && Numbers(cases) == OneTo(|cases|)
    && forall i, j | 0 <= i < j < |cases| :: cases[i].no != cases[j].no
  }

  /** Range and no duplicates are all the server checks; by the pigeonhole principle no number is missing. */
  lemma ValidNumbersAreOneToN(req: ResultRequest)
    requires ValidResult(req)
    ensures NumbersAreOneToN(req.cases)
  {
    DistinctCount(req.cases);
    OneToIs(|req.cases|);
    var gap := OneTo(|req.cases|) - Numbers(req.cases);
    assert OneTo(|req.cases|) == Numbers(req.cases) + gap;
  }

  lemma {:induction false} DistinctCount(cases: seq<CaseResult>)
    requires forall i, j | 0 <= i < j < |cases| :: cases[i].no != cases[j].no
    ensures |Numbers(cases)| == |cases|
  {
    if cases != [] {
      var init := cases[..|cases| - 1];
      DistinctCount(init);
      assert Numbers(cases) == Numbers(init) + {cases[|cases| - 1].no} by {
        forall i | 0 <= i < |init| ensures cases[i].no in Numbers(init) { assert init[i] == cases[i]; }
      }
    }
  }

  lemma {:induction false} OneToIs(n: nat)
    ensures forall k :: k in OneTo(n) <==> 1 <= k <= n
    ensures |OneTo(n)| == n
  {
    if n > 0 { OneToIs(n - 1); }
  }

  // ---- the protocol as a transition system --------------------------------

  /** What `tryLease` keeps between its transaction and the end of the payload build. */
  datatype Lease = Lease(id: nat, attempt: nat, judger: nat)

  /** The right to speak for one attempt of one submission, held by the worker that was handed the task. */
  datatype Ticket = Ticket(id: nat, attempt: int)

  datatype Progress = Progress(id: nat, attempt: int, stage: string, done: int, total: Option<int>)

  /** The database rows; the leases whose payload is being built; the tickets handed out so far (history);
      the progress saves issued but not yet performed; and the progress cache, one record a submission. */
  datatype State = State(rows: Rows, building: set<Lease>, handed: set<Ticket>, saves: set<Progress>,
                         cache: map<nat, Progress>)

  const EMPTY := State(map[], {}, {}, {}, map[])

  datatype Action =
    | Submit(id: nat, problem: nat, createdAt: int)
    | LeaseTx(id: nat, judger: nat, now: int, locked: set<nat>)
    | BuildOk(lease: Lease)
    | BuildFail(lease: Lease)
    | Heartbeat(caller: Caller, beat: HeartbeatRequest, now: int)
    | Result(caller: Caller, result: ResultRequest)
    | RejudgeSubmission(id: nat)
    | RejudgeProblem(problem: nat)
    | SaveLands(save: Progress)
    | CacheDrop(id: nat)

  /** When a step can happen. Workers post only for tickets they were handed; the rest is what the code checks. */
  predicate Enabled(s: State, a: Action)
  {
    match a
    case Submit(id, _, _) => id != 0 && id !in s.rows
    case LeaseTx(id, judger, now, locked) => judger != 0 && Picks(s.rows, now, locked, id)
    case BuildOk(lease) => lease in s.building
    case BuildFail(lease) => lease in s.building
    case Heartbeat(_, beat, _) => ValidHeartbeat(beat) && Ticket(beat.id, beat.attempt) in s.handed
    case Result(_, result) => ValidResult(result) && Ticket(result.id, result.attempt) in s.handed
    case RejudgeSubmission(id) => id in s.rows
    case RejudgeProblem(_) => true
    case SaveLands(save) => save in s.saves
    case CacheDrop(_) => true
  }

  /** A save is skipped for an empty stage (and for a zero id or attempt, which no valid request has). */
  function Saving(s: State, save: Progress): set<Progress>
  {
    if save.id == 0 || save.attempt <= 0 || save.stage == "" then s.saves else s.saves + {save}
  }

  function Next(s: State, a: Action): State
    requires Enabled(s, a)
  {
    match a
    case Submit(id, problem, createdAt) => s.(rows := s.rows[id := NewRow(problem, createdAt)])
    case LeaseTx(id, judger, now, _) =>
      s.(rows := LeaseRows(s.rows, id, judger, now),
         building := s.building + {Lease(id, s.rows[id].attempt + 1, judger)})
    case BuildOk(lease) =>
      s.(building := s.building - {lease}, handed := s.handed + {TicketOf(lease)},
         saves := Saving(s, Progress(lease.id, lease.attempt, "leased", 0, None)))
    case BuildFail(lease) => s.(rows := ResetRows(s.rows, lease), building := s.building - {lease})
    case Heartbeat(caller, beat, now) =>
      s.(rows := HeartbeatRows(s.rows, caller, beat, now),
         saves := if PostOutcome(s.rows, caller, beat.id, beat.attempt).Applied?
                  then Saving(s, Progress(beat.id, beat.attempt, beat.stage, beat.done, beat.total)) else s.saves)
    case Result(caller, result) => s.(rows := ResultRows(s.rows, caller, result))
    case RejudgeSubmission(id) => s.(rows := RejudgeRows(s.rows, {id}))
    case RejudgeProblem(problem) => s.(rows := RejudgeRows(s.rows, OfProblem(s.rows, problem)))
    case SaveLands(save) => s.(saves := s.saves - {save}, cache := s.cache[save.id := save])
    case CacheDrop(id) => s.(cache := s.cache - {id})
  }

  function TicketOf(lease: Lease): Ticket { Ticket(lease.id, lease.attempt) }

  function OfProblem(rows: Rows, problem: nat): set<nat>
  {
    set id | id in rows && rows[id].problem == problem
  }

  /** A run: the states it passes through and the step taken out of each but the last. */
  ghost predicate IsRun(ss: seq<State>, acts: seq<Action>)
  {
    && |ss| == |acts| + 1 && ss[0] == EMPTY
    && forall i | 0 <= i < |acts| :: Enabled(ss[i], acts[i]) && ss[i + 1] == Next(ss[i], acts[i])
  }

  // ---- the invariant ------------------------------------------------------

  /** An unfinished lease never exceeds its row's attempt, and while it equals it the lease is in force. */
  ghost predicate LeasesInForce(s: State)
  {
    forall l | l in s.building ::
      && l.id in s.rows && 0 < l.attempt <= s.rows[l.id].attempt && l.judger != 0
      && (l.attempt == s.rows[l.id].attempt ==> StillLeased(s.rows[l.id], l))
  }

  /** Tickets are past or present attempts, and no lease being built was already handed out or leased twice. */
  ghost predicate TicketsFenced(s: State)
  {
    && (forall t | t in s.handed :: t.id in s.rows && 0 < t.attempt <= s.rows[t.id].attempt)
    && (forall l | l in s.building :: TicketOf(l) !in s.handed)
    && (forall l, m | l in s.building && m in s.building && TicketOf(l) == TicketOf(m) :: l == m)
  }

  /** Nobody holds, or is about to be handed, the attempt of a queued row. */
  ghost predicate QueueUnclaimed(s: State)
  {
    forall id | id in s.rows && s.rows[id].status.Queued? ::
      && s.rows[id].judger.None? && s.rows[id].until.None?
      && Ticket(id, s.rows[id].attempt) !in s.handed
      && (forall l | l in s.building && l.id == id :: l.attempt < s.rows[id].attempt)
  }

  ghost predicate CasesInOrder(s: State)
  {
    forall id | id in s.rows ::
      && id != 0 && !s.rows[id].status.Unknown?
      && (Live(s.rows[id].status) ==> s.rows[id].cases == [])
      && NumbersAreOneToN(s.rows[id].cases)
  }

  ghost predicate ProgressHasTicket(s: State)
  {
    && (forall p | p in s.saves :: Ticket(p.id, p.attempt) in s.handed)
    && (forall id | id in s.cache :: s.cache[id].id == id && Ticket(id, s.cache[id].attempt) in s.handed)
  }

  ghost predicate Inv(s: State)
  {
    LeasesInForce(s) && TicketsFenced(s) && QueueUnclaimed(s) && CasesInOrder(s) && ProgressHasTicket(s)
  }

  lemma SubmitKeepsInv(s: State, a: Action)
    requires Inv(s) && Enabled(s, a) && a.Submit?
    ensures Inv(Next(s, a))
  {}

  lemma RejudgeKeepsInv(s: State, ids: set<nat>)
    requires Inv(s)
    ensures Inv(s.(rows := RejudgeRows(s.rows, ids)))
  {}

  lemma LeaseKeepsInv(s: State, a: Action)
    requires Inv(s) && Enabled(s, a) && a.LeaseTx?
    ensures Inv(Next(s, a))
  {}

  lemma HandOutKeepsInv(s: State, a: Action)
    requires Inv(s) && Enabled(s, a) && a.BuildOk?
    ensures Inv(Next(s, a))
  {}

  lemma ResetKeepsInv(s: State, a: Action)
    requires Inv(s) && Enabled(s, a) && a.BuildFail?
    ensures Inv(Next(s, a))
  {}

  lemma PostKeepsInv(s: State, a: Action)
    requires Inv(s) && Enabled(s, a) && (a.Heartbeat? || a.Result?)
    ensures Inv(Next(s, a))
  {
    if a.Result? { ValidNumbersAreOneToN(a.result); }
  }

  lemma StepKeepsInv(s: State, a: Action)
    requires Inv(s) && Enabled(s, a)
    ensures Inv(Next(s, a))
  {
    match a
    case Submit(_, _, _) => SubmitKeepsInv(s, a);
    case LeaseTx(_, _, _, _) => LeaseKeepsInv(s, a);
    case BuildOk(_) => HandOutKeepsInv(s, a);
    case BuildFail(_) => ResetKeepsInv(s, a);
    case RejudgeSubmission(id) => RejudgeKeepsInv(s, {id});
    case RejudgeProblem(problem) => RejudgeKeepsInv(s, OfProblem(s.rows, problem));
    case Heartbeat(_, _, _) => PostKeepsInv(s, a);
    case Result(_, _) => PostKeepsInv(s, a);
    case SaveLands(_) =>
    case CacheDrop(_) =>
  }
}
