/** Verdict and score, from the checker's exit code to the result the judger posts. Scores are case points: no case
    has negative points. */
module Scoring {
  import opened Basics
  import opened Verdicts
  import OutputCompare

  datatype CaseResult = CaseResult(id: string, verdict: Status, score: int, timeMs: int, memoryKb: int, message: string)

  datatype Case = Case(id: string, points: int)

  /** What a case's result may say about its points. */
  predicate Good(points: int, r: CaseResult)
  {
    && ValidVerdict(r.verdict) && 0 <= r.score <= points
    && (r.verdict.AC? ==> r.score == points)
    && (!r.verdict.AC? && points > 0 ==> r.score < points)
  }

  // ---- the checker --------------------------------------------------------

  function Clamp(value: int, low: int, high: int): int
  {
    if value < low then low else if value > high then high else value
  }

  /** `caseResultFromTestlib`; `parsed` is the number its message starts with, if it does. */
  function FromTestlib(item: Case, exitCode: int, message: string, parsed: Option<int>, timeMs: int): CaseResult
  {
    var r := CaseResult(item.id, SE, 0, timeMs, 0, message);
    var partial := if parsed.Some? then Clamp(parsed.value, 0, item.points) else 0;
    match exitCode
    case 0 => r.(verdict := AC, score := item.points)
    case 1 => r.(verdict := WA)
    case 2 => r.(verdict := PE)
    case 8 => r.(verdict := PE)
    case _ =>
      if parsed.Some? then r.(verdict := if partial == item.points then AC else WA, score := partial)
      else if exitCode == 7 then r.(verdict := WA)
      else r.(message := if message == "" then "judge exited" else message)
  }

  /** A checker accepts by its exit code, or by awarding all the points or more, which codes 1, 2 and 8 cannot do;
      partial points show in the score alone. */
  lemma TestlibMeans(item: Case, exitCode: int, message: string, parsed: Option<int>, timeMs: int)
    requires item.points >= 0
    ensures var r := FromTestlib(item, exitCode, message, parsed, timeMs);
            var awarding := exitCode !in {0, 1, 2, 8} && parsed.Some?;
            && Good(item.points, r)
            && (r.verdict.AC? <==> exitCode == 0 || (awarding && (parsed.value >= item.points || item.points == 0)))
            && (r.verdict.SE? <==> exitCode !in {0, 1, 2, 7, 8} && parsed.None?)
            && (0 < r.score < item.points <==> awarding && 0 < parsed.value < item.points)
            && (awarding && 0 <= parsed.value <= item.points ==> r.score == parsed.value)
            && (r.verdict.PE? <==> exitCode in {2, 8})
            && (r.score > 0 ==> exitCode == 0 || awarding)
            && (exitCode == 1 || (exitCode == 7 && parsed.None?) ==> r.verdict.WA?)
            && r.id == item.id && r.timeMs == timeMs && r.memoryKb == 0
            && (r.message == if r.verdict.SE? && message == "" then "judge exited" else message)
  {}

  // ---- resource statistics ------------------------------------------------

  datatype Stats = Stats(memoryPeak: int, memoryOom: bool, memoryMaxed: bool, cpuUsec: int, pidsMaxed: bool)

  predicate MemoryExceeded(stats: Stats) { stats.memoryOom || stats.memoryMaxed }

  /** `applyCgroupStatsSnapshot`, in the judger and in the runner. */
  method ApplyStats(r: CaseResult, stats: Option<Stats>) returns (out: CaseResult)
    ensures stats.None? ==> out == r
    ensures stats.Some? && (stats.value.memoryOom || stats.value.memoryMaxed) ==>
              out.verdict == MLE && out.score == 0 && out.message == ""
    ensures stats.Some? && !stats.value.memoryOom && !stats.value.memoryMaxed && stats.value.pidsMaxed
            && r.verdict.AC? ==>
              out.verdict == RE && out.score == 0 && out.message == "process limit exceeded"
    ensures stats.Some? && !stats.value.memoryOom && !stats.value.memoryMaxed
            && !(stats.value.pidsMaxed && r.verdict.AC?) ==>
              out.verdict == r.verdict && out.score == r.score && out.message == r.message
    ensures stats.Some? ==> out.timeMs == if stats.value.cpuUsec > 0 && !r.verdict.TLE?
                                          then (stats.value.cpuUsec + 999) / 1000 else r.timeMs
    ensures stats.Some? ==> out.memoryKb == if stats.value.memoryPeak > 0 then (stats.value.memoryPeak + 1023) / 1024
                                            else r.memoryKb
    ensures out.id == r.id
    ensures forall points | points >= 0 && Good(points, r) :: Good(points, out)
  {
    out := r;
    if stats.None? { return; }
    var s := stats.value;
    if s.cpuUsec > 0 && !out.verdict.TLE? { out := out.(timeMs := (s.cpuUsec + 999) / 1000); }
    if s.memoryPeak > 0 { out := out.(memoryKb := (s.memoryPeak + 1023) / 1024); }
    if MemoryExceeded(s) {
      out := out.(verdict := MLE, score := 0, message := "");
      return;
    }
    if s.pidsMaxed && out.verdict.AC? {
      out := out.(verdict := RE, score := 0, message := "process limit exceeded");
    }
  }

  /** The statistics leave an accepted case accepted. */
  predicate Undisputed(stats: Option<Stats>) { stats.Some? ==> !MemoryExceeded(stats.value) && !stats.value.pidsMaxed }

  // ---- a case with a built-in checker -------------------------------------

  /** How waiting on a process ended. */
  datatype Exit = Clean | Code(code: int) | Killed(brokenPipe: bool) | Lost(brokenPipe: bool) | Overflowed

  datatype Gate = NoGate | Opened | Refused(timedOut: bool)

  /** What the world does to a run of the user's program: the gate, the runner's own control group (none, made or
      failed), whether the release file could be written, the clock, the output file, and the program itself. */
  datatype Run = Run(gate: Gate, group: Option<bool>, releaseWritten: bool, timedOut: bool, outputKept: bool,
                     overflow: bool, exit: Exit, stats: Option<Stats>, timeMs: int)

  predicate Undisturbed(run: Run)
  {
    SetUp(run) && !run.timedOut && run.outputKept && !run.overflow && run.exit.Clean?
  }

  predicate SetUp(run: Run)
  {
    !run.gate.Refused? && run.group != Some(false) && (run.gate.Opened? || run.group.Some? ==> run.releaseWritten)
  }

  predicate OutOfMemory(stats: Option<Stats>) { stats.Some? && MemoryExceeded(stats.value) }

  function Plain(item: Case, verdict: Status, timeMs: int): CaseResult
  {
    CaseResult(item.id, verdict, 0, timeMs, 0, "")
  }

  /** Running the built-in checker on an output it can read; its messages never start with a number. */
  method CheckOutput(item: Case, mode: OutputCompare.Mode, answer: string, output: string, timeMs: int)
    returns (r: CaseResult)
    requires item.points >= 0
    ensures Good(item.points, r)
    ensures r.verdict == OutputCompare.Compare(mode, answer, output)
    ensures r.score == (if r.verdict.AC? then item.points else 0) && r.memoryKb == 0
  {
    var verdict := OutputCompare.Compare(mode, answer, output);
    var message := if verdict.SE? then "unsupported builtin judge mode" else "";
    TestlibMeans(item, OutputCompare.ExitCode(verdict), message, None, timeMs);
    r := FromTestlib(item, OutputCompare.ExitCode(verdict), message, None, timeMs);
  }

  /** How a program that was set up ended, before the statistics are looked at: the first trouble, or the comparison. */
  method Verdict(item: Case, run: Run, mode: OutputCompare.Mode, answer: string, output: string, readable: bool)
    returns (r: CaseResult)
    requires item.points >= 0 && SetUp(run)
    ensures Good(item.points, r) && r.score == (if r.verdict.AC? then item.points else 0) && r.memoryKb == 0
    ensures r.verdict == if run.timedOut then TLE
                         else if !run.outputKept then SE
                         else if run.overflow || run.exit == Overflowed then OLE
                         else if run.exit != Clean then RE
                         else if !readable then SE
                         else OutputCompare.Compare(mode, answer, output)
  {
    if run.timedOut {
      r := Plain(item, TLE, run.timeMs);
    } else if !run.outputKept {
      r := Plain(item, SE, 0);
    } else if run.overflow || run.exit.Overflowed? {
      r := Plain(item, OLE, run.timeMs);
    } else if !run.exit.Clean? {
      r := Plain(item, RE, run.timeMs);
    } else if !readable {
      r := Plain(item, SE, run.timeMs);
    } else {
      r := CheckOutput(item, mode, answer, output, run.timeMs);
    }
  }

  /** `runBuiltinLocalCase`, once the processes could be set up: the program's output is compared with the answer. */
  method RunBuiltin(item: Case, run: Run, mode: OutputCompare.Mode, answer: string, output: string, readable: bool)
    returns (r: CaseResult)
    requires item.points >= 0
    ensures Good(item.points, r)
    ensures r.score == if r.verdict.AC? then item.points else 0
    ensures Undisturbed(run) && readable && Undisputed(run.stats) ==>
              r.verdict == OutputCompare.Compare(mode, answer, output)
    ensures !(Undisturbed(run) && readable && Undisputed(run.stats)) ==> !r.verdict.AC?
    // without a gate that opens, a group and a release file nothing runs
    ensures run.gate.Refused? ==> r.verdict == if run.gate.timedOut then TLE else SE
    ensures !run.gate.Refused? && (run.group == Some(false)
                                   || ((run.gate.Opened? || run.group == Some(true)) && !run.releaseWritten)) ==>
              r.verdict == SE
    // memory first, then the first trouble: time, the output file, its size, the program, the file again
    ensures SetUp(run) && run.stats.Some? && (run.stats.value.memoryOom || run.stats.value.memoryMaxed) ==>
              r.verdict == MLE
    ensures SetUp(run) && !OutOfMemory(run.stats) && !(Undisturbed(run) && readable) ==>
              r.verdict == if run.timedOut then TLE
                           else if !run.outputKept then SE
                           else if run.overflow || run.exit == Overflowed then OLE
                           else if run.exit != Clean then RE
                           else SE
    ensures run.stats.None? ==> r.memoryKb == 0
  {
    if run.gate.Refused? {
      return Plain(item, if run.gate.timedOut then TLE else SE, run.timeMs);
    }
    if run.group == Some(false) { return Plain(item, SE, 0); }
    if (run.gate.Opened? || run.group.Some?) && !run.releaseWritten { return Plain(item, SE, 0); }
    r := Verdict(item, run, mode, answer, output, readable);
    r := ApplyStats(r, run.stats);
  }

  // ---- a case with its own checker ----------------------------------------

  /** `testlibExitCode`. */
  function TestlibExit(e: Exit): int { match e case Clean => 0 case Code(code) => code case _ => 3 }

  predicate BrokenPipe(e: Exit) { (e.Killed? || e.Lost?) && e.brokenPipe }

  datatype Party = Judge | User

  /** The last end of a party among the first `n` arrivals, or what was known of it. */
  function Latest(arrivals: seq<(Party, Exit)>, n: nat, party: Party, known: Exit): Exit
    requires n <= |arrivals|
  {
    if n == 0 then known
    else if arrivals[n - 1].0 == party then arrivals[n - 1].1
    else Latest(arrivals, n - 1, party, known)
  }

  lemma {:induction false} NoNews(arrivals: seq<(Party, Exit)>, n: nat, party: Party, known: Exit)
    requires n <= |arrivals| && forall a | a in arrivals :: a.0 != party
    ensures Latest(arrivals, n, party, known) == known
  {
    if n > 0 {
      assert arrivals[n - 1] in arrivals;
      NoNews(arrivals, n - 1, party, known);
    }
  }

  /** `collectWaitResults`: what still arrives within a moment, at most twice. */
  method CollectWaitResults(arrivals: seq<(Party, Exit)>, judgeWait: Exit, userWait: Exit)
    returns (judge: Exit, user: Exit)
    ensures judge == Latest(arrivals, Min(2, |arrivals|), Judge, judgeWait)
    ensures user == Latest(arrivals, Min(2, |arrivals|), User, userWait)
  {
    judge, user := judgeWait, userWait;
    for index := 0 to 2
      invariant index <= |arrivals|
      invariant judge == Latest(arrivals, index, Judge, judgeWait) && user == Latest(arrivals, index, User, userWait)
    {
      if index == |arrivals| { return; }
      if arrivals[index].0.Judge? { judge := arrivals[index].1; } else { user := arrivals[index].1; }
    }
  }

  /** What happens once both processes run: who ends first, how each ends, and after how many ends (0, 1 or 2) the
      clock runs out, with what still arrives then. */
  datatype Duel = Duel(first: Party, judge: Exit, user: Exit, endsInTime: nat, late: seq<(Party, Exit)>, overflow: bool,
                       message: string, parsed: Option<int>, stats: Option<Stats>, timeMs: int)

  predicate JudgeInTime(d: Duel) { d.endsInTime == 2 || (d.endsInTime == 1 && d.first.Judge?) }

  /** Only processes that have not ended can still arrive. */
  predicate Sane(d: Duel)
  {
    && d.endsInTime <= 2
    && (JudgeInTime(d) ==> forall a | a in d.late :: a.0.User?)
  }

  /** The end of `runCustomLocalCase`: the wait loop and the verdict with its overrides. */
  method RunCustom(item: Case, d: Duel) returns (r: CaseResult)
    requires item.points >= 0 && Sane(d)
    ensures Good(item.points, r)
    ensures var said := FromTestlib(item, TestlibExit(d.judge), d.message, d.parsed, d.timeMs);
            var userBroke := !d.user.Clean? && !BrokenPipe(d.user);
            // accepted: both in time, no overflow, the program fine or cut off by the checker, the checker content
            && (r.verdict.AC? <==> d.endsInTime == 2 && said.verdict.AC? && !d.overflow && !d.user.Overflowed?
                                   && !userBroke && Undisputed(d.stats))
            // partial points survive only where the checker's word stands
            && (r.score > 0 ==> JudgeInTime(d) && r.score == said.score && r.verdict == said.verdict)
            // out of time, the checker's own refusal stands if it came first
            && (d.endsInTime < 2 && !OutOfMemory(d.stats) ==>
                  r.verdict == if JudgeInTime(d) && !said.verdict.AC? then said.verdict else TLE)
            && (OutOfMemory(d.stats) ==> r.verdict == MLE && r.score == 0)
            // in time, an overflow outranks a broken program, and both outrank the checker
            && (d.endsInTime == 2 && !OutOfMemory(d.stats) ==>
                  var word := if d.overflow || d.user.Overflowed? then OLE else if userBroke then RE else said.verdict;
                  && r.verdict == (if word.AC? && !Undisputed(d.stats) then RE else word)
                  && r.score == if r.verdict == said.verdict && word == said.verdict then said.score else 0)
    // by the checker's exit, when nothing else went wrong
    ensures d.endsInTime == 2 && !d.overflow && d.user in {Clean, Killed(true), Lost(true)} && Undisputed(d.stats) ==>
              && (d.judge == Clean ==> r.verdict == AC && r.score == item.points)
              && (d.judge == Code(1) ==> r.verdict == WA && r.score == 0)
              && (d.judge in {Code(2), Code(8)} ==> r.verdict == PE && r.score == 0)
              && (d.judge.Killed? || d.judge.Lost? || d.judge.Overflowed? ==> d.parsed.None? ==> r.verdict == SE)
  {
    TestlibMeans(item, TestlibExit(d.judge), d.message, d.parsed, d.timeMs);
    var judgeWait, userWait := Clean, Clean;
    var judgeDone := false;
    for waits := 0 to 2
      invariant waits <= d.endsInTime
      invariant judgeDone == (waits == 2 || (waits == 1 && d.first.Judge?))
      invariant judgeDone ==> judgeWait == d.judge
      invariant waits == 2 || (waits == 1 && d.first.User?) ==> userWait == d.user
    {
      if waits == d.endsInTime {
        if judgeDone { NoNews(d.late, Min(2, |d.late|), Judge, judgeWait); }
        judgeWait, userWait := CollectWaitResults(d.late, judgeWait, userWait);
        if judgeDone {
          var result := FromTestlib(item, TestlibExit(judgeWait), d.message, d.parsed, d.timeMs);
          if !result.verdict.AC? {
            r := ApplyStats(result, d.stats);
            return;
          }
        }
        r := ApplyStats(Plain(item, TLE, d.timeMs), d.stats);
        return;
      }
      if (waits == 0) == d.first.Judge? {
        judgeWait, judgeDone := d.judge, true;
      } else {
        userWait := d.user;
      }
    }
    var result := FromTestlib(item, TestlibExit(judgeWait), d.message, d.parsed, d.timeMs);
    if d.overflow || userWait.Overflowed? {
      r := ApplyStats(result.(verdict := OLE, score := 0, message := ""), d.stats);
      return;
    }
    if !userWait.Clean? && !result.verdict.OLE? && !BrokenPipe(userWait) {
      result := result.(verdict := RE, score := 0);
    }
    r := ApplyStats(result, d.stats);
  }
}
