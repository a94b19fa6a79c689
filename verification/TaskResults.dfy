/** From case results to the result a judger posts, and on to the cases the server stores. */
module TaskResults {
  import opened Basics
  import opened Verdicts
  import opened Scoring
  import Judging
  import Manifest

  datatype TaskResult = TaskResult(id: nat, attempt: int, verdict: Status, score: int, message: string,
                                   timeMs: int, memoryKb: int, cases: seq<CaseResult>)

  /** What precedes the cases: greeting, compilation, case files, the problem's own checker. */
  datatype Prelude =
    | Ready
    | Broken(text: string)
    | NotCompiled(text: string)
    | CheckerNotCompiled(text: string, timeMs: int)

  // ---- one case, as the judger sees it ------------------------------------

  /** The end of `runCase`: the group's statistics, and a time for a killed program that has none. */
  method ReceiveResult(r: CaseResult, stats: Option<Stats>, elapsedMs: int) returns (out: CaseResult)
    ensures forall points | points >= 0 && Good(points, r) :: Good(points, out)
    ensures Undisputed(stats) ==> out.verdict == r.verdict && out.score == r.score
    ensures out.verdict.AC? <==> r.verdict.AC? && Undisputed(stats)
    ensures r.verdict.AC? && !Undisputed(stats) ==> out.verdict in {MLE, RE} && out.score == 0
    ensures OutOfMemory(stats) ==> out.verdict == MLE && out.score == 0
    ensures !OutOfMemory(stats) && !r.verdict.AC? ==> out.verdict == r.verdict && out.score == r.score
    ensures var measured := if stats.Some? && stats.value.cpuUsec > 0 && !r.verdict.TLE?
                            then (stats.value.cpuUsec + 999) / 1000 else r.timeMs;
            out.timeMs == if measured == 0 && out.verdict in {TLE, MLE} then elapsedMs else measured
    ensures out.memoryKb == if stats.Some? && stats.value.memoryPeak > 0 then (stats.value.memoryPeak + 1023) / 1024
                            else r.memoryKb
    ensures out.id == r.id
  {
    out := ApplyStats(r, stats);
    if out.timeMs == 0 && (out.verdict.TLE? || out.verdict.MLE?) { out := out.(timeMs := elapsedMs); }
  }

  // ---- all cases ----------------------------------------------------------

  function Scores(rs: seq<CaseResult>): seq<int> { seq(|rs|, i requires 0 <= i < |rs| => rs[i].score) }

  /** The first verdict that is not AC, or AC. */
  function Overall(rs: seq<CaseResult>): Status
  {
    if rs == [] then AC
    else if !Overall(rs[..|rs| - 1]).AC? then Overall(rs[..|rs| - 1])
    else rs[|rs| - 1].verdict
  }

  predicate IsPeak(peak: int, values: seq<int>)
  {
    (forall v | v in values :: v <= peak) && (peak == 0 || peak in values) && peak >= 0
  }

  function Times(rs: seq<CaseResult>): seq<int> { seq(|rs|, i requires 0 <= i < |rs| => rs[i].timeMs) }

  function Memories(rs: seq<CaseResult>): seq<int> { seq(|rs|, i requires 0 <= i < |rs| => rs[i].memoryKb) }

  /** `runTask`. A case without a result is an error that ends the task. */
  method RunTask(id: nat, attempt: int, cases: seq<Case>, prelude: Prelude, got: seq<Option<CaseResult>>)
    returns (result: Option<TaskResult>)
    requires |got| == |cases|
    ensures result.None? <==> cases != [] && (prelude.Broken? || (prelude.Ready? && None in got))
    ensures cases == [] ==> result == Some(TaskResult(id, attempt, SE, 0, "task has no cases", 0, 0, []))
    ensures cases != [] && prelude.NotCompiled? ==>
              result == Some(TaskResult(id, attempt, CE, 0, prelude.text, 0, 0, []))
    ensures cases != [] && prelude.CheckerNotCompiled? ==>
              result == Some(TaskResult(id, attempt, SE, 0, "custom judge compile failed: " + prelude.text,
                                        prelude.timeMs, 0, []))
    ensures result.Some? && cases != [] && prelude.Ready? ==>
              var r := result.value;
              && r.id == id && r.attempt == attempt && r.message == ""
              && |r.cases| == |cases| && (forall i | 0 <= i < |cases| :: got[i] == Some(r.cases[i]))
              && r.verdict == Overall(r.cases) && r.score == Sum(Scores(r.cases))
              && IsPeak(r.timeMs, Times(r.cases)) && IsPeak(r.memoryKb, Memories(r.cases))
  {
    var blank := TaskResult(id, attempt, SE, 0, "", 0, 0, []);
    if cases == [] { return Some(blank.(message := "task has no cases")); }
    match prelude {
      case Broken(_) => return None;
      case NotCompiled(text) => return Some(blank.(verdict := CE, message := text));
      case CheckerNotCompiled(text, timeMs) =>
        return Some(blank.(message := "custom judge compile failed: " + text, timeMs := timeMs));
      case Ready =>
    }
    var totalScore, verdict, maxTime, maxMemory := 0, AC, 0, 0;
    var results: seq<CaseResult> := [];
    for index := 0 to |cases|
      invariant |results| == index && forall i | 0 <= i < index :: got[i] == Some(results[i])
      invariant verdict == Overall(results) && totalScore == Sum(Scores(results))
      invariant IsPeak(maxTime, Times(results)) && IsPeak(maxMemory, Memories(results))
    {
      if got[index].None? {
        assert None in got;
        return None;
      }
      var item := got[index].value;
      OneMore(results, item);
      results := results + [item];
      totalScore := totalScore + item.score;
      if item.timeMs > maxTime { maxTime := item.timeMs; }
      if item.memoryKb > maxMemory { maxMemory := item.memoryKb; }
      if verdict.AC? && !item.verdict.AC? { verdict := item.verdict; }
    }
    assert forall i | 0 <= i < |got| :: got[i].Some?;
    return Some(blank.(verdict := verdict, score := totalScore, timeMs := maxTime, memoryKb := maxMemory,
                       cases := results));
  }

  lemma {:induction false} OneMore(rs: seq<CaseResult>, item: CaseResult)
    ensures Overall(rs + [item]) == if Overall(rs).AC? then item.verdict else Overall(rs)
    ensures Sum(Scores(rs + [item])) == Sum(Scores(rs)) + item.score
    ensures forall peak | IsPeak(peak, Times(rs)) :: IsPeak(Max(peak, item.timeMs), Times(rs + [item]))
    ensures forall peak | IsPeak(peak, Memories(rs)) :: IsPeak(Max(peak, item.memoryKb), Memories(rs + [item]))
  {
    assert (rs + [item])[..|rs|] == rs;
    assert Scores(rs + [item]) == Scores(rs) + [item.score];
    assert Times(rs + [item]) == Times(rs) + [item.timeMs];
    assert Memories(rs + [item]) == Memories(rs) + [item.memoryKb];
    assert (Scores(rs) + [item.score])[..|rs|] == Scores(rs);
    assert forall v :: v in Times(rs) + [item.timeMs] <==> v in Times(rs) || v == item.timeMs;
    assert forall v :: v in Memories(rs) + [item.memoryKb] <==> v in Memories(rs) || v == item.memoryKb;
  }

  // ---- what a task's verdict and score mean -------------------------------

  function Points(cases: seq<Case>): seq<int> { seq(|cases|, i requires 0 <= i < |cases| => cases[i].points) }

  predicate AllGood(cases: seq<Case>, rs: seq<CaseResult>)
  {
    |rs| == |cases| && forall i | 0 <= i < |rs| :: Good(cases[i].points, rs[i])
  }

  predicate AllAccepted(rs: seq<CaseResult>) { forall i | 0 <= i < |rs| :: rs[i].verdict.AC? }

  lemma {:induction false} OverallIsFirstFailure(rs: seq<CaseResult>)
    ensures Overall(rs).AC? <==> AllAccepted(rs)
    ensures !Overall(rs).AC? ==>
              exists i | 0 <= i < |rs| :: rs[i].verdict == Overall(rs) && !rs[i].verdict.AC? && AllAccepted(rs[..i])
  {
    if rs != [] {
      var init := rs[..|rs| - 1];
      OverallIsFirstFailure(init);
      if !Overall(init).AC? {
        var i :| 0 <= i < |init| && init[i].verdict == Overall(init) && !init[i].verdict.AC? && AllAccepted(init[..i]);
        assert rs[i] == init[i] && rs[..i] == init[..i];
      } else {
        assert forall i | 0 <= i < |init| :: rs[i] == init[i];
      }
    }
  }

  lemma {:induction false} ScoreWithinPoints(cases: seq<Case>, rs: seq<CaseResult>)
    requires AllGood(cases, rs)
    ensures 0 <= Sum(Scores(rs)) <= Sum(Points(cases))
    ensures AllAccepted(rs) ==> Sum(Scores(rs)) == Sum(Points(cases))
    ensures !AllAccepted(rs) && (forall c | c in cases :: c.points > 0) ==> Sum(Scores(rs)) < Sum(Points(cases))
  {
    if rs != [] {
      var n := |rs| - 1;
      ScoreWithinPoints(cases[..n], rs[..n]);
      assert Scores(rs)[..n] == Scores(rs[..n]) && Points(cases)[..n] == Points(cases[..n]);
      assert Good(cases[n].points, rs[n]);
      assert cases[n] in cases && forall c | c in cases[..n] :: c in cases;
      assert AllAccepted(rs) <==> AllAccepted(rs[..n]) && rs[n].verdict.AC? by {
        if AllAccepted(rs[..n]) && rs[n].verdict.AC? {
          forall i | 0 <= i < |rs| ensures rs[i].verdict.AC? { if i < n { assert rs[..n][i] == rs[i]; } }
        }
      }
    }
  }

  /** A task that ran its cases is accepted exactly if every case is; where all cases have points, exactly if it
      scores them all. Otherwise it carries its first failing case's verdict. */
  lemma AcceptedMeansFullScore(cases: seq<Case>, r: TaskResult)
    requires AllGood(cases, r.cases) && r.verdict == Overall(r.cases) && r.score == Sum(Scores(r.cases))
    ensures r.verdict.AC? <==> AllAccepted(r.cases)
    ensures r.verdict.AC? ==> r.score == Sum(Points(cases))
    ensures (forall c | c in cases :: c.points > 0) ==> (r.verdict.AC? <==> r.score == Sum(Points(cases)))
    ensures 0 <= r.score <= Sum(Points(cases)) && ValidVerdict(r.verdict)
    ensures !r.verdict.AC? ==>
              exists i | 0 <= i < |r.cases| ::
                r.cases[i].verdict == r.verdict && !r.cases[i].verdict.AC? && AllAccepted(r.cases[..i])
  {
    OverallIsFirstFailure(r.cases);
    ScoreWithinPoints(cases, r.cases);
  }

  // ---- the whole way, from processes to verdict ---------------------------

  /** One case's circumstances: the built-in checker's or its own, and the judger's statistics. */
  datatype World =
    | Builtin(run: Run, mode: OutputCompare.Mode, answer: string, output: string, readable: bool,
              stats: Option<Stats>, elapsedMs: int)
    | Custom(duel: Duel, stats: Option<Stats>, elapsedMs: int)

  predicate Passes(item: Case, w: World)
  {
    && Undisputed(w.stats)
    && match w
       case Builtin(run, mode, answer, output, readable, _, _) =>
         Undisturbed(run) && readable && Undisputed(run.stats) && OutputCompare.Compare(mode, answer, output).AC?
       case Custom(d, _, _) =>
         && d.endsInTime == 2 && !d.overflow && (d.user.Clean? || BrokenPipe(d.user)) && Undisputed(d.stats)
         && FromTestlib(item, TestlibExit(d.judge), d.message, d.parsed, d.timeMs).verdict.AC?
  }

  /** `RunLocalCase` at the runner, then the judger's end of `runCase`. */
  method RunCase(item: Case, w: World) returns (r: CaseResult)
    requires item.points >= 0 && (w.Custom? ==> Sane(w.duel))
    ensures Good(item.points, r) && (r.verdict.AC? <==> Passes(item, w))
  {
    match w {
      case Builtin(run, mode, answer, output, readable, stats, elapsedMs) =>
        r := RunBuiltin(item, run, mode, answer, output, readable);
      case Custom(duel, stats, elapsedMs) =>
        r := RunCustom(item, duel);
    }
    r := ReceiveResult(r, w.stats, w.elapsedMs);
  }

  /** Every case of a compiled task is run to its end. The task is accepted exactly if every case passes, and where
      all cases have points, exactly if its score is the sum of the points. */
  method JudgeTask(id: nat, attempt: int, cases: seq<Case>, worlds: seq<World>) returns (result: TaskResult)
    requires cases != [] && |worlds| == |cases|
    requires forall c | c in cases :: c.points >= 0
    requires forall w | w in worlds :: w.Custom? ==> Sane(w.duel)
    ensures AllGood(cases, result.cases) && result.verdict == Overall(result.cases)
    ensures result.verdict.AC? <==> forall i | 0 <= i < |cases| :: Passes(cases[i], worlds[i])
    ensures 0 <= result.score <= Sum(Points(cases))
    ensures (forall c | c in cases :: c.points > 0) ==>
              (result.score == Sum(Points(cases)) <==> forall i | 0 <= i < |cases| :: Passes(cases[i], worlds[i]))
  {
    var got: seq<Option<CaseResult>> := [];
    for i := 0 to |cases|
      invariant |got| == i && forall k | 0 <= k < i :: got[k].Some?
      invariant forall k | 0 <= k < i ::
                  Good(cases[k].points, got[k].value) && (got[k].value.verdict.AC? <==> Passes(cases[k], worlds[k]))
    {
      assert cases[i] in cases && worlds[i] in worlds;
      var r := RunCase(cases[i], worlds[i]);
      got := got + [Some(r)];
    }
    var ran := RunTask(id, attempt, cases, Ready, got);
    result := ran.value;
    AcceptedMeansFullScore(cases, result);
  }

  // ---- when a full score means accepted -----------------------------------

  /** The score is full exactly if every case that is not accepted is worth nothing. */
  lemma {:induction false} FullScoreMeans(cases: seq<Case>, rs: seq<CaseResult>)
    requires AllGood(cases, rs)
    ensures Sum(Scores(rs)) <= Sum(Points(cases))
    ensures Sum(Scores(rs)) == Sum(Points(cases)) <==>
              forall i | 0 <= i < |rs| :: rs[i].verdict.AC? || cases[i].points == 0
  {
    if rs != [] {
      var n := |rs| - 1;
      FullScoreMeans(cases[..n], rs[..n]);
      assert Scores(rs)[..n] == Scores(rs[..n]) && Points(cases)[..n] == Points(cases[..n]);
      assert Good(cases[n].points, rs[n]);
      assert forall i | 0 <= i < n :: rs[..n][i] == rs[i] && cases[..n][i] == cases[i];
    }
  }

  /** Full results for all cases but those worth nothing, which fail. */
  function FailWorthless(cases: seq<Case>): (rs: seq<CaseResult>)
    requires forall c | c in cases :: c.points >= 0
    ensures AllGood(cases, rs)
    ensures forall i | 0 <= i < |rs| :: rs[i].verdict.AC? <==> cases[i].points > 0
  {
    seq(|cases|, i requires 0 <= i < |cases| =>
      CaseResult(cases[i].id, if cases[i].points > 0 then AC else WA, cases[i].points, 0, 0, ""))
  }

  /** For the cases of a task, a full score always means an accepted task exactly if every case is worth something. */
  lemma FullScoreMeansAccepted(cases: seq<Case>)
    requires forall c | c in cases :: c.points >= 0
    ensures (forall c | c in cases :: c.points > 0) <==>
              forall rs: seq<CaseResult> | AllGood(cases, rs) && Sum(Scores(rs)) == Sum(Points(cases)) ::
                Overall(rs).AC?
  {
    if forall c | c in cases :: c.points > 0 {
      forall rs: seq<CaseResult> | AllGood(cases, rs) && Sum(Scores(rs)) == Sum(Points(cases)) ensures Overall(rs).AC? {
        FullScoreMeans(cases, rs);
        forall i | 0 <= i < |rs| ensures rs[i].verdict.AC? { assert cases[i] in cases; }
        OverallIsFirstFailure(rs);
      }
    } else {
      var c :| c in cases && c.points == 0;
      var i :| 0 <= i < |cases| && cases[i] == c;
      var rs := FailWorthless(cases);
      FullScoreMeans(cases, rs);
      OverallIsFirstFailure(rs);
      assert !rs[i].verdict.AC?;
    }
  }

  /** `buildPayload`'s cases. */
  function Payload(cases: seq<Manifest.Case>): seq<Case>
  {
    seq(|cases|, i requires 0 <= i < |cases| => Case(cases[i].id, cases[i].Points()))
  }

  /** In a package without scores every case is worth 10, and a task is accepted exactly at 10 times their number. */
  lemma {:induction false} UnscoredPackage(cases: seq<Manifest.Case>, r: TaskResult)
    requires forall c | c in cases :: c.score.None?
    requires AllGood(Payload(cases), r.cases) && r.verdict == Overall(r.cases) && r.score == Sum(Scores(r.cases))
    ensures r.verdict.AC? <==> r.score == 10 * |cases|
  {
    AcceptedMeansFullScore(Payload(cases), r);
    SumOfTens(Points(Payload(cases)));
  }

  lemma {:induction false} SumOfTens(values: seq<int>)
    requires forall i | 0 <= i < |values| :: values[i] == 10
    ensures Sum(values) == 10 * |values|
  {
    if values != [] { SumOfTens(values[..|values| - 1]); }
  }

  // ---- posting ------------------------------------------------------------

  function Measured(value: int): Option<int> { if value > 0 then Some(value) else None }

  /** `postResult`: the cases are numbered from 1, and only positive measurements are sent. */
  method ToRequest(r: TaskResult, messageBytes: nat) returns (req: Judging.ResultRequest)
    ensures req == Posted(r, messageBytes)
    ensures req.id == r.id && req.attempt == r.attempt && req.status == r.verdict && req.report.score == r.score
    ensures req.report.message == r.message && |req.cases| == |r.cases|
    ensures req.report.timeMs == (if r.timeMs > 0 then Some(r.timeMs) else None)
            && req.report.memoryKb == if r.memoryKb > 0 then Some(r.memoryKb) else None
    ensures forall i | 0 <= i < |r.cases| ::
              var item, c := req.cases[i], r.cases[i];
              && item.no == i + 1 && item.id == c.id && item.status == c.verdict && item.score == c.score
              && item.timeMs == (if c.timeMs > 0 then Some(c.timeMs) else None)
              && item.memoryKb == if c.memoryKb > 0 then Some(c.memoryKb) else None
  {
    var cases: seq<Judging.CaseResult> := [];
    for index := 0 to |r.cases|
      invariant cases == Posted(r, messageBytes).cases[..index]
    {
      cases := cases + [PostedCase(index + 1, r.cases[index])];
    }
    req := Judging.ResultRequest(r.id, r.attempt, r.verdict,
      Judging.Report(r.score, r.message, Measured(r.timeMs), Measured(r.memoryKb)), messageBytes, cases);
  }

  function PostedCase(no: int, c: CaseResult): Judging.CaseResult
  {
    Judging.CaseResult(no, c.id, c.verdict, c.score, Measured(c.timeMs), Measured(c.memoryKb), |c.message|)
  }

  function Posted(r: TaskResult, messageBytes: nat): Judging.ResultRequest
  {
    Judging.ResultRequest(r.id, r.attempt, r.verdict,
      Judging.Report(r.score, r.message, Measured(r.timeMs), Measured(r.memoryKb)), messageBytes,
      seq(|r.cases|, i requires 0 <= i < |r.cases| => PostedCase(i + 1, r.cases[i])))
  }

  predicate CaseWithinLimits(c: CaseResult)
  {
    && 0 < |c.id| <= Judging.MAX_CASE_ID && |c.message| <= Judging.MAX_CASE_MESSAGE_RUNES
    && c.timeMs <= Judging.MAX_TIME_MS && c.memoryKb <= Judging.MAX_MEMORY_KB
  }

  /** What the server can still object to: sizes of ids, messages and measurements, and a target that is not one. */
  predicate WithinLimits(r: TaskResult, messageBytes: nat)
  {
    && r.id != 0 && r.attempt > 0 && messageBytes <= Judging.MAX_MESSAGE_BYTES && |r.cases| <= Judging.MAX_CASES
    && r.timeMs <= Judging.MAX_TIME_MS && r.memoryKb <= Judging.MAX_MEMORY_KB
    && forall i | 0 <= i < |r.cases| :: CaseWithinLimits(r.cases[i])
  }

  lemma CaseIsTaken(no: int, points: int, c: CaseResult)
    requires Good(points, c)
    ensures Judging.ValidCase(PostedCase(no, c)) <==> CaseWithinLimits(c)
  {}

  /** The server takes the posted result of a task exactly if it is within the size limits: verdicts, scores and
      numbering never fail its checks; and what it then stores is numbered 1..n in the order the cases ran. */
  lemma PostedIsTaken(cases: seq<Case>, r: TaskResult, messageBytes: nat)
    requires AllGood(cases, r.cases) && ValidVerdict(r.verdict) && r.score >= 0
    ensures Judging.ValidResult(Posted(r, messageBytes)) <==> WithinLimits(r, messageBytes)
    ensures WithinLimits(r, messageBytes) ==> Judging.NumbersAreOneToN(Posted(r, messageBytes).cases)
    ensures forall i | 0 <= i < |r.cases| :: Posted(r, messageBytes).cases[i].no == i + 1
  {
    var posted := Posted(r, messageBytes).cases;
    forall i | 0 <= i < |r.cases| ensures Judging.ValidCase(posted[i]) <==> CaseWithinLimits(r.cases[i]) {
      CaseIsTaken(i + 1, cases[i].points, r.cases[i]);
    }
    if Judging.ValidResult(Posted(r, messageBytes)) { Judging.ValidNumbersAreOneToN(Posted(r, messageBytes)); }
  }
}
