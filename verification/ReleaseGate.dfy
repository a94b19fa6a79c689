/** Judger and runner together: two ordered streams between them, and a user program that must not start before its
    process is in its case's control group. The model begins when the program is compiled. */
module ReleaseGate {
  import opened Basics
  import opened RunnerGate

  // ---- the two machines ---------------------------------------------------

  datatype Phase = Preparing | Waiting | Started | Done

  /** A case at the runner. `pid` is the wrapper process that waits to become the user's program. */
  datatype Proc = Proc(id: string, pid: Option<int>, phase: Phase)

  /** `asked` cases have been sent; the judger reads replies while `busy` with the last of them; `cgroup` is the group
      it made for that case, by its process. `confined` records every process ever put into a group, and for which
      case. The runner's goroutine of its `c`-th channel is `procs[c]`. */
  datatype State = State(asked: nat, busy: bool, cgroup: Option<int>, failed: bool, confined: set<(string, int)>,
                         toRunner: seq<Request>, toJudger: seq<Reply>, conn: Conn, procs: seq<Proc>)

  /** What stays fixed: the task and its cases, and whether the judger has a control group root. */
  datatype Task = Task(id: string, cases: seq<string>, rooted: bool)

  function Begin(task: Task, command: string): State
  {
    State(0, false, None, false, {}, [], [], FRESH.(hello := true, commands := map[task.id := command]), [])
  }

  datatype Step =
    | Ask                              // the judger sends its next case
    | Read(added: bool)                // the judger reads a reply; adding a process to a group may fail
    | Abort                            // the judger gives up: its context ended or a send failed
    | Deliver                          // the runner handles a message
    | Fail(c: nat)                     // a case fails before its process starts
    | Announce(c: nat, pid: int)       // the wrapper has started; its pid is reported
    | Start(c: nat)                    // the gate is open: the wrapper becomes the user's program
    | Finish(c: nat)                   // the program ended, or time ran out, at the gate or after it
    | CleanUp(c: nat)                  // the case's goroutine returns

  predicate In(s: State, c: nat, phase: Phase) { c < |s.procs| && s.procs[c].phase == phase }

  predicate CanStep(task: Task, s: State, step: Step)
  {
    match step
    case Ask => !s.failed && !s.busy && s.asked < |task.cases|
    case Read(added) => !s.failed && s.busy && s.toJudger != []
    case Abort => true
    case Deliver => s.toRunner != [] && !s.conn.over
    case Fail(c) => In(s, c, Preparing)
    case Announce(c, pid) => In(s, c, Preparing)
    case Start(c) => In(s, c, Waiting) && c in s.conn.closings
    case Finish(c) => In(s, c, Waiting) || In(s, c, Started)
    case CleanUp(c) => In(s, c, Done)
  }

  function StepTo(task: Task, s: State, step: Step): State
    requires CanStep(task, s, step)
  {
    match step
    case Ask =>
      s.(asked := s.asked + 1, busy := true, cgroup := None,
         toRunner := s.toRunner + [RunCase(Some(CaseRef(task.id, task.cases[s.asked])))])
    case Read(added) => ReadReply(task, s.(toJudger := s.toJudger[1..]), s.toJudger[0], added)
    case Abort => s.(failed := true)
    case Deliver =>
      var (conn, replies) := Answer(s.conn, s.toRunner[0], true);
      s.(toRunner := s.toRunner[1..], toJudger := s.toJudger + replies, conn := conn,
         procs := if |conn.keys| > |s.conn.keys| then s.procs + [Proc(s.toRunner[0].run.value.id, None, Preparing)]
                  else s.procs)
    case Fail(c) =>
      s.(procs := s.procs[c := s.procs[c].(phase := Done)], toJudger := s.toJudger + [Error("case failed")])
    case Announce(c, pid) =>
      s.(procs := s.procs[c := s.procs[c].(pid := Some(pid), phase := Waiting)],
         toJudger := s.toJudger + [UserPid(CaseRef(task.id, s.procs[c].id), pid)])
    case Start(c) => s.(procs := s.procs[c := s.procs[c].(phase := Started)])
    case Finish(c) =>
      s.(procs := s.procs[c := s.procs[c].(phase := Done)], toJudger := s.toJudger + [CaseResult(s.procs[c].id)])
    case CleanUp(c) => s.(conn := After(s.conn, Returned(ReleaseKey(task.id, s.procs[c].id))))
  }

  /** One turn of `runCase`'s loop. */
  function ReadReply(task: Task, s: State, reply: Reply, added: bool): State
  {
    match reply
    case UserPid(ref, pid) =>
      if s.cgroup.None? && task.rooted && !added then s.(failed := true)
      else
        var made := s.cgroup.None? && task.rooted;
        s.(cgroup := if made then Some(pid) else s.cgroup,
           confined := if made then s.confined + {(ref.id, pid)} else s.confined,
           toRunner := s.toRunner + [ReleaseUser(Some(ref))])
    case CaseResult(id) => s.(busy := false)
    case _ => s.(failed := true)
  }

  ghost predicate IsRun(task: Task, command: string, run: seq<State>, steps: seq<Step>)
  {
    && |run| == |steps| + 1 && run[0] == Begin(task, command)
    && forall i | 0 <= i < |steps| :: CanStep(task, run[i], steps[i]) && run[i + 1] == StepTo(task, run[i], steps[i])
  }

  // ---- the invariant ------------------------------------------------------

  /** The process of the `c`-th case was put into a group made for that case. */
  predicate Vouched(task: Task, s: State, c: nat)
    requires c < |s.procs| <= |task.cases|
  {
    s.procs[c].pid.Some? && (task.cases[c], s.procs[c].pid.value) in s.confined
  }

  /** The replies other than errors. */
  function Talk(replies: seq<Reply>): seq<Reply>
  {
    if replies == [] then []
    else if replies[0].Error? then Talk(replies[1..])
    else [replies[0]] + Talk(replies[1..])
  }

  /** The replies about the case the judger is busy with that it has yet to read. */
  function Script(task: Task, s: State): seq<Reply>
    requires |s.procs| <= |task.cases|
  {
    if !s.busy || s.procs == [] || |s.procs| < s.asked then []
    else
      var p := s.procs[|s.procs| - 1];
      (if p.pid.Some? && s.cgroup.None? then [UserPid(CaseRef(task.id, p.id), p.pid.value)] else [])
      + (if p.pid.Some? && p.phase == Done then [CaseResult(p.id)] else [])
  }

  /** Cases are asked for one at a time, and the runner's goroutines are those of the cases in order. */
  ghost predicate InStep(task: Task, s: State)
  {
    && task.rooted && s.asked <= |task.cases|
    && |s.procs| == |s.conn.keys| && |s.procs| <= s.asked <= |s.procs| + 1
    && (!s.busy ==> s.asked == |s.procs|)
    && (forall c | 0 <= c < |s.procs| ::
          s.procs[c].id == task.cases[c] && s.conn.keys[c] == ReleaseKey(task.id, task.cases[c]))
    && (forall c | 0 <= c < |s.procs| :: (s.procs[c].phase == Preparing ==> s.procs[c].pid.None?)
                                         && (s.procs[c].phase in {Waiting, Started} ==> s.procs[c].pid.Some?))
    && (forall c | 0 <= c < |s.procs| :: s.procs[c].phase == Done || (s.busy && c == s.asked - 1))
  }

  /** Releases in flight are for the newest goroutine, whose process is in its group; a request to run a case is the
      last message in flight. */
  ghost predicate StreamInOrder(task: Task, s: State)
    requires |s.procs| <= |task.cases|
  {
    && (forall i | 0 <= i < |s.toRunner| :: s.toRunner[i].RunCase? ==> i == |s.toRunner| - 1 && |s.procs| < s.asked)
    && (|s.procs| < s.asked <= |task.cases| ==>
          s.toRunner != [] && s.toRunner[|s.toRunner| - 1] == RunCase(Some(CaseRef(task.id, task.cases[s.asked - 1]))))
    && (forall m | m in s.toRunner && !m.RunCase? ::
          && s.procs != [] && m == ReleaseUser(Some(CaseRef(task.id, task.cases[|s.procs| - 1])))
          && Vouched(task, s, |s.procs| - 1))
  }

  ghost predicate Gated(task: Task, s: State)
    requires |s.procs| <= |task.cases|
  {
    && s.conn.hello && !s.conn.over && task.id in s.conn.commands && Sound(s.conn)
    && (forall c | c in s.conn.closings :: c < |s.procs| && Vouched(task, s, c))
    && (forall c | 0 <= c < |s.procs| :: s.procs[c].phase == Started ==> c in s.conn.closings)
  }

  ghost predicate JudgerKnows(task: Task, s: State)
    requires |s.procs| <= |task.cases|
  {
    !s.failed ==>
      && Talk(s.toJudger) == Script(task, s)
      && (s.busy && s.cgroup.Some? ==> s.procs != [] && s.asked == |s.procs| && Vouched(task, s, |s.procs| - 1))
  }

  ghost predicate Inv(task: Task, s: State)
  {
    InStep(task, s) && StreamInOrder(task, s) && Gated(task, s) && JudgerKnows(task, s)
  }

  // ---- every step keeps it ------------------------------------------------

  lemma {:induction false} TalkMore(a: seq<Reply>, b: seq<Reply>)
    ensures Talk(a + b) == Talk(a) + Talk(b)
  {
    if a == [] {
      assert a + b == b;
    } else {
      TalkMore(a[1..], b);
      assert (a + b)[1..] == a[1..] + b && (a + b)[0] == a[0];
      assert [a[0]] + (Talk(a[1..]) + Talk(b)) == [a[0]] + Talk(a[1..]) + Talk(b);
    }
  }

  lemma AskKeepsInv(task: Task, s: State)
    requires Inv(task, s) && CanStep(task, s, Ask)
    ensures Inv(task, StepTo(task, s, Ask))
  {}

  lemma GiveUpKeepsInv(task: Task, s: State, rest: seq<Reply>)
    requires Inv(task, s)
    ensures Inv(task, s.(toJudger := rest, failed := true))
  {}

  /** The report the judger reads is of the newest process, which is in no group yet. */
  lemma PidIsNews(task: Task, s: State)
    requires Inv(task, s) && CanStep(task, s, Read(true)) && s.toJudger[0].UserPid?
    ensures s.procs != [] && s.asked == |s.procs| && s.cgroup.None?
    ensures var p := s.procs[|s.procs| - 1];
            p.pid.Some? && s.toJudger[0] == UserPid(CaseRef(task.id, p.id), p.pid.value)
    ensures Script(task, s) == [s.toJudger[0]] + Talk(s.toJudger[1..])
  {
    assert Talk(s.toJudger)[0] == s.toJudger[0];
  }

  lemma ConfineKeepsInv(task: Task, s: State, t: State)
    requires Inv(task, s) && CanStep(task, s, Read(true)) && s.toJudger[0].UserPid?
    requires t == StepTo(task, s, Read(true))
    ensures Inv(task, t)
  {
    PidIsNews(task, s);
    var p := s.procs[|s.procs| - 1];
    assert t == s.(toJudger := s.toJudger[1..], cgroup := p.pid, confined := s.confined + {(p.id, p.pid.value)},
                   toRunner := s.toRunner + [ReleaseUser(Some(CaseRef(task.id, p.id)))]);
    assert Script(task, t) == Script(task, s)[1..];
  }

  lemma ResultKeepsInv(task: Task, s: State)
    requires Inv(task, s) && CanStep(task, s, Read(true)) && s.toJudger[0].CaseResult?
    ensures Inv(task, s.(toJudger := s.toJudger[1..], busy := false))
  {
    assert Talk(s.toJudger) == [s.toJudger[0]] + Talk(s.toJudger[1..]);
    assert Script(task, s)[0] == s.toJudger[0];
  }

  lemma ReadKeepsInv(task: Task, s: State, added: bool)
    requires Inv(task, s) && CanStep(task, s, Read(added))
    ensures Inv(task, StepTo(task, s, Read(added)))
  {
    match s.toJudger[0]
    case UserPid(_, _) =>
      PidIsNews(task, s);
      if added {
        ConfineKeepsInv(task, s, StepTo(task, s, Read(true)));
      } else {
        GiveUpKeepsInv(task, s, s.toJudger[1..]);
      }
    case CaseResult(_) => ResultKeepsInv(task, s);
    case _ => GiveUpKeepsInv(task, s, s.toJudger[1..]);
  }

  lemma RunArrives(task: Task, s: State)
    requires Inv(task, s) && CanStep(task, s, Deliver) && s.toRunner[0].RunCase?
    ensures Inv(task, StepTo(task, s, Deliver))
  {
    var t := StepTo(task, s, Deliver);
    assert s.toRunner == [s.toRunner[0]];
    var run := s.toRunner[0].run.value;
    assert run == CaseRef(task.id, task.cases[s.asked - 1]);
    OpenKeepsSound(s.conn, run.Key());
    assert t.conn == Opened(s.conn, run.Key()) && t.toJudger == s.toJudger;
    assert t.procs == s.procs + [Proc(run.id, None, Preparing)];
    assert forall c | 0 <= c < |s.procs| :: t.procs[c] == s.procs[c] && t.conn.keys[c] == s.conn.keys[c];
  }

  lemma StreamAdvances(task: Task, s: State, t: State)
    requires |s.procs| <= |task.cases| && StreamInOrder(task, s) && s.toRunner != [] && !s.toRunner[0].RunCase?
    requires (t.asked, t.confined, t.procs, t.toRunner) == (s.asked, s.confined, s.procs, s.toRunner[1..])
    ensures StreamInOrder(task, t)
  {}

  /** A release opens the newest gate, if it is still there. */
  lemma ReleaseOpens(task: Task, s: State)
    requires Inv(task, s) && CanStep(task, s, Deliver) && !s.toRunner[0].RunCase?
    ensures var t, last := StepTo(task, s, Deliver), |s.procs| - 1;
            var key := ReleaseKey(task.id, task.cases[last]);
            && 0 <= last && Vouched(task, s, last) && t.procs == s.procs
            && (key in s.conn.pending ==> s.conn.pending[key] == last && t.conn == Closed(s.conn, key)
                                          && t.toJudger == s.toJudger)
            && (key !in s.conn.pending ==> t.conn == s.conn && t.toJudger[..|s.toJudger|] == s.toJudger
                                           && |t.toJudger| == |s.toJudger| + 1 && t.toJudger[|s.toJudger|].Error?)
  {
    var m := s.toRunner[0];
    assert m in s.toRunner;
    var last := |s.procs| - 1;
    var key := m.target.value.Key();
    assert key == s.conn.keys[last];
    assert key in s.conn.pending ==> s.conn.pending[key] == last;
  }

  lemma ReleaseArrives(task: Task, s: State)
    requires Inv(task, s) && CanStep(task, s, Deliver) && !s.toRunner[0].RunCase?
    ensures Inv(task, StepTo(task, s, Deliver))
  {
    hide Answer;
    var t, last := StepTo(task, s, Deliver), |s.procs| - 1;
    ReleaseOpens(task, s);
    StreamAdvances(task, s, t);
    var key := ReleaseKey(task.id, task.cases[last]);
    if key in s.conn.pending {
      CloseKeepsSound(s.conn, key);
      OpenedKeepsInv(task, s, t, key);
    } else {
      LateKeepsInv(task, s, t);
    }
  }

  /** A release that comes too late is answered with an error. */
  lemma LateKeepsInv(task: Task, s: State, t: State)
    requires Inv(task, s) && CanStep(task, s, Deliver) && t == StepTo(task, s, Deliver) && StreamInOrder(task, t)
    requires (t.conn, t.procs) == (s.conn, s.procs) && t.toJudger[..|s.toJudger|] == s.toJudger
    requires |t.toJudger| == |s.toJudger| + 1 && t.toJudger[|s.toJudger|].Error?
    ensures Inv(task, t)
  {
    hide Answer;
    var told := [t.toJudger[|s.toJudger|]];
    assert t.toJudger == s.toJudger + told;
    TalkMore(s.toJudger, told);
    assert Talk(told) == [] && Script(task, t) == Script(task, s);
  }

  lemma OpenedKeepsGated(task: Task, s: State, t: State, key: string)
    requires |s.procs| <= |task.cases| && Gated(task, s) && key in s.conn.pending && s.procs != []
    requires s.conn.pending[key] == |s.procs| - 1 && Vouched(task, s, |s.procs| - 1) && Sound(Closed(s.conn, key))
    requires (t.conn, t.procs, t.confined) == (Closed(s.conn, key), s.procs, s.confined)
    ensures Gated(task, t)
  {}

  lemma OpenedKeepsInv(task: Task, s: State, t: State, key: string)
    requires Inv(task, s) && key in s.conn.pending && s.procs != [] && s.conn.pending[key] == |s.procs| - 1
    requires Vouched(task, s, |s.procs| - 1) && Sound(Closed(s.conn, key))
    requires t == s.(toRunner := t.toRunner, conn := Closed(s.conn, key)) && StreamInOrder(task, t)
    ensures Inv(task, t)
  {
    OpenedKeepsGated(task, s, t, key);
    assert t.conn.keys == s.conn.keys && Script(task, t) == Script(task, s);
  }

  /** A case's process changes phase and the runner tells the judger what it is to know. */
  lemma {:induction false} ProcKeepsInv(task: Task, s: State, t: State, c: nat, p: Proc, told: seq<Reply>)
    requires Inv(task, s) && c < |s.procs| && s.procs[c].phase != Done
    requires p.id == s.procs[c].id && (s.procs[c].pid.Some? ==> p.pid == s.procs[c].pid)
    requires p.phase != Preparing && (p.phase in {Waiting, Started} ==> p.pid.Some?)
    requires p.phase == Started ==> c in s.conn.closings
    requires t == s.(procs := s.procs[c := p], toJudger := s.toJudger + told)
    requires !s.failed ==> Script(task, t) == Script(task, s) + Talk(told)
    ensures Inv(task, t)
  {
    hide InStep, StreamInOrder, Gated, Talk, Script;
    assert c < |s.procs| <= |task.cases| by { ProcsFit(task, s); }
    ProcKeepsStep(task, s, t, c, p);
    ProcKeepsStreams(task, s, t, c, p);
    ProcKeepsGated(task, s, t, c, p);
    TalkMore(s.toJudger, told);
  }

  lemma ProcsFit(task: Task, s: State)
    requires InStep(task, s)
    ensures |s.procs| <= |task.cases|
  {}

  lemma ProcKeepsStep(task: Task, s: State, t: State, c: nat, p: Proc)
    requires InStep(task, s) && c < |s.procs| && s.procs[c].phase != Done && p.id == s.procs[c].id
    requires p.phase != Preparing && (p.phase in {Waiting, Started} ==> p.pid.Some?)
    requires t == s.(procs := s.procs[c := p], toJudger := t.toJudger)
    ensures InStep(task, t)
  {}

  lemma ProcKeepsGated(task: Task, s: State, t: State, c: nat, p: Proc)
    requires c < |s.procs| <= |task.cases| && Gated(task, s)
    requires (s.procs[c].pid.Some? ==> p.pid == s.procs[c].pid) && (p.phase == Started ==> c in s.conn.closings)
    requires t == s.(procs := s.procs[c := p], toJudger := t.toJudger)
    ensures Gated(task, t)
  {
    hide Sound;
  }

  lemma ProcKeepsStreams(task: Task, s: State, t: State, c: nat, p: Proc)
    requires InStep(task, s) && StreamInOrder(task, s) && c < |s.procs|
    requires p.id == s.procs[c].id && (s.procs[c].pid.Some? ==> p.pid == s.procs[c].pid)
    requires (t.asked, t.confined, t.toRunner, t.procs) == (s.asked, s.confined, s.toRunner, s.procs[c := p])
    ensures StreamInOrder(task, t)
  {}

  lemma FailKeepsInv(task: Task, s: State, c: nat)
    requires Inv(task, s) && CanStep(task, s, Fail(c))
    ensures Inv(task, StepTo(task, s, Fail(c)))
  {
    ProcKeepsInv(task, s, StepTo(task, s, Fail(c)), c, s.procs[c].(phase := Done), [Error("case failed")]);
  }

  lemma AnnounceKeepsInv(task: Task, s: State, c: nat, pid: int)
    requires Inv(task, s) && CanStep(task, s, Announce(c, pid))
    ensures Inv(task, StepTo(task, s, Announce(c, pid)))
  {
    ProcKeepsInv(task, s, StepTo(task, s, Announce(c, pid)), c, s.procs[c].(pid := Some(pid), phase := Waiting),
                 [UserPid(CaseRef(task.id, s.procs[c].id), pid)]);
  }

  lemma StartKeepsInv(task: Task, s: State, c: nat)
    requires Inv(task, s) && CanStep(task, s, Start(c))
    ensures Inv(task, StepTo(task, s, Start(c)))
  {
    assert s.toJudger + [] == s.toJudger;
    ProcKeepsInv(task, s, StepTo(task, s, Start(c)), c, s.procs[c].(phase := Started), []);
  }

  lemma FinishKeepsInv(task: Task, s: State, c: nat)
    requires Inv(task, s) && CanStep(task, s, Finish(c))
    ensures Inv(task, StepTo(task, s, Finish(c)))
  {
    ProcKeepsInv(task, s, StepTo(task, s, Finish(c)), c, s.procs[c].(phase := Done), [CaseResult(s.procs[c].id)]);
  }

  lemma AbortKeepsInv(task: Task, s: State)
    requires Inv(task, s)
    ensures Inv(task, StepTo(task, s, Abort))
  {}

  lemma CleanUpKeepsInv(task: Task, s: State, c: nat)
    requires Inv(task, s) && CanStep(task, s, CleanUp(c))
    ensures Inv(task, StepTo(task, s, CleanUp(c)))
  {
    StepKeepsSound(s.conn, Returned(ReleaseKey(task.id, s.procs[c].id)));
  }

  lemma StepKeepsInv(task: Task, s: State, step: Step)
    requires Inv(task, s) && CanStep(task, s, step)
    ensures Inv(task, StepTo(task, s, step))
  {
    match step
    case Ask => AskKeepsInv(task, s);
    case Read(added) => ReadKeepsInv(task, s, added);
    case Abort => AbortKeepsInv(task, s);
    case Deliver => if s.toRunner[0].RunCase? { RunArrives(task, s); } else { ReleaseArrives(task, s); }
    case CleanUp(c) => CleanUpKeepsInv(task, s, c);
    case Announce(c, pid) => AnnounceKeepsInv(task, s, c, pid);
    case Fail(c) => FailKeepsInv(task, s, c);
    case Start(c) => StartKeepsInv(task, s, c);
    case Finish(c) => FinishKeepsInv(task, s, c);
  }

  lemma {:induction false} RunKeepsInv(task: Task, command: string, run: seq<State>, steps: seq<Step>, n: nat)
    requires task.rooted && IsRun(task, command, run, steps) && n < |run|
    ensures Inv(task, run[n])
  {
    if n > 0 {
      RunKeepsInv(task, command, run, steps, n - 1);
      StepKeepsInv(task, run[n - 1], steps[n - 1]);
      assert run[n - 1 + 1] == StepTo(task, run[n - 1], steps[n - 1]);
    }
  }

  // ---- the gate holds -----------------------------------------------------

  /** At step `m` the judger reads the report of process `p` and, having no group yet for the case, puts it into one. */
  ghost predicate ConfinedAt(task: Task, run: seq<State>, steps: seq<Step>, m: nat, p: Proc)
  {
    && m < |steps| && m + 1 < |run| && steps[m] == Read(true) && run[m].toJudger != [] && p.pid.Some?
    && run[m].toJudger[0] == UserPid(CaseRef(task.id, p.id), p.pid.value) && run[m].cgroup.None?
    && run[m + 1].cgroup == p.pid && (p.id, p.pid.value) in run[m + 1].confined
  }

  /** In every run, whatever the schedule, the timeouts and the failures: a gate is open only if the judger has put
      that case's own process into the case's control group before. */
  lemma GatesOpenOnlyForConfined(task: Task, command: string, run: seq<State>, steps: seq<Step>, n: nat, c: nat)
    requires task.rooted && IsRun(task, command, run, steps) && n < |run| && c in run[n].conn.closings
    ensures c < |run[n].procs| && c < |task.cases| && run[n].procs[c].id == task.cases[c]
    ensures exists m: nat | m < n :: ConfinedAt(task, run, steps, m, run[n].procs[c])
  {
    RunKeepsInv(task, command, run, steps, n);
    ConfinedByReading(task, command, run, steps, n, run[n].procs[c]);
  }

  /** So no user program starts before its process is in its case's control group. */
  lemma NoProgramStartsUnconfined(task: Task, command: string, run: seq<State>, steps: seq<Step>, n: nat)
    requires task.rooted && IsRun(task, command, run, steps) && n < |steps| && steps[n].Start?
    ensures exists m: nat | m < n :: ConfinedAt(task, run, steps, m, run[n].procs[steps[n].c])
  {
    GatesOpenOnlyForConfined(task, command, run, steps, n, steps[n].c);
  }

  /** A process is put into a group only on reading its report. */
  lemma NewlyConfined(task: Task, s: State, step: Step, p: Proc)
    requires Inv(task, s) && CanStep(task, s, step) && p.pid.Some?
    requires (p.id, p.pid.value) in StepTo(task, s, step).confined && (p.id, p.pid.value) !in s.confined
    ensures step == Read(true) && s.toJudger != [] && s.cgroup.None? && StepTo(task, s, step).cgroup == p.pid
    ensures s.toJudger[0] == UserPid(CaseRef(task.id, p.id), p.pid.value)
  {
    hide Answer, StreamInOrder, Gated;
    assert Talk(s.toJudger)[0] == s.toJudger[0];
  }

  lemma {:induction false} ConfinedByReading(task: Task, command: string, run: seq<State>, steps: seq<Step>, n: nat,
                                             p: Proc)
    requires task.rooted && IsRun(task, command, run, steps) && n < |run|
    requires p.pid.Some? && (p.id, p.pid.value) in run[n].confined
    ensures exists m: nat | m < n :: ConfinedAt(task, run, steps, m, p)
  {
    hide CanStep, StepTo, Inv;
    if n > 0 {
      RunKeepsInv(task, command, run, steps, n - 1);
      assert CanStep(task, run[n - 1], steps[n - 1]) && run[n - 1 + 1] == StepTo(task, run[n - 1], steps[n - 1]);
      if (p.id, p.pid.value) in run[n - 1].confined {
        ConfinedByReading(task, command, run, steps, n - 1, p);
        var m: nat :| m < n - 1 && ConfinedAt(task, run, steps, m, p);
      } else {
        NewlyConfined(task, run[n - 1], steps[n - 1], p);
        assert ConfinedAt(task, run, steps, n - 1, p);
      }
    }
  }

  /** Once the judger has given up, it sends nothing more; it can give up at any time, and does when it cannot make a
      group. Without a control group root it lets programs go without one. */
  lemma GivingUpIsFinal(task: Task, s: State, step: Step)
    requires CanStep(task, s, step)
    ensures s.failed ==> StepTo(task, s, step).failed && |StepTo(task, s, step).toRunner| <= |s.toRunner|
    ensures step == Abort ==> StepTo(task, s, step).failed
    ensures step.Read? && s.toJudger[0].UserPid? && s.cgroup == None && !step.added ==>
              StepTo(task, s, step).failed == task.rooted
  {
    hide Answer;
  }

  // ---- and every program can start ----------------------------------------

  ghost predicate IsPath(task: Task, ss: seq<State>, steps: seq<Step>)
  {
    && |ss| == |steps| + 1
    && forall i | 0 <= i < |steps| :: CanStep(task, ss[i], steps[i]) && ss[i + 1] == StepTo(task, ss[i], steps[i])
  }

  /** Between two cases: nothing is in flight, and every case asked for so far has been let go and is over. */
  predicate Between(task: Task, s: State)
  {
    && !s.busy && !s.failed && s.toRunner == [] && s.toJudger == []
    && s.conn.hello && !s.conn.over && task.id in s.conn.commands && s.conn.pending == map[]
    && |s.conn.keys| == |s.procs| == s.asked
  }

  lemma Go(task: Task, ss: seq<State>, steps: seq<Step>, step: Step, next: State)
    returns (ss': seq<State>, steps': seq<Step>)
    requires IsPath(task, ss, steps) && CanStep(task, ss[|steps|], step) && StepTo(task, ss[|steps|], step) == next
    ensures IsPath(task, ss', steps') && ss' == ss + [next] && steps' == steps + [step]
  {
    ss', steps' := ss + [next], steps + [step];
  }

  /** The judger has asked for its next case and put its process into a group; the wrapper waits for the release. */
  function Confined(task: Task, s: State, pid: int): State
    requires s.asked < |task.cases|
  {
    var ref := CaseRef(task.id, task.cases[s.asked]);
    s.(asked := s.asked + 1, busy := true, cgroup := Some(pid), confined := s.confined + {(ref.id, pid)},
       toRunner := [ReleaseUser(Some(ref))], conn := Opened(s.conn, ref.Key()),
       procs := s.procs + [Proc(ref.id, Some(pid), Waiting)])
  }

  /** The gate is open and the program runs. */
  function Running(task: Task, s: State, pid: int): State
    requires s.asked < |task.cases|
  {
    var ref := CaseRef(task.id, task.cases[s.asked]);
    Confined(task, s, pid).(toRunner := [], conn := Closed(Opened(s.conn, ref.Key()), ref.Key()),
                            procs := s.procs + [Proc(ref.id, Some(pid), Started)])
  }

  lemma Confine(task: Task, s: State, pid: int) returns (ss: seq<State>, steps: seq<Step>)
    requires Between(task, s) && task.rooted && s.asked < |task.cases|
    ensures IsPath(task, ss, steps) && ss[0] == s && ss[|steps|] == Confined(task, s, pid)
  {
    var ref := CaseRef(task.id, task.cases[s.asked]);
    var t := s.(asked := s.asked + 1, busy := true, cgroup := None);
    ss, steps := Go(task, [s], [], Ask, t.(toRunner := [RunCase(Some(ref))]));
    t := t.(conn := Opened(s.conn, ref.Key()));
    assert [RunCase(Some(ref))][1..] == [] && s.toJudger + [] == s.toJudger;
    ss, steps := Go(task, ss, steps, Deliver, t.(procs := s.procs + [Proc(ref.id, None, Preparing)]));
    t := t.(procs := s.procs + [Proc(ref.id, Some(pid), Waiting)]);
    ss, steps := Go(task, ss, steps, Announce(s.asked, pid), t.(toJudger := [UserPid(ref, pid)]));
    assert [UserPid(ref, pid)][1..] == [];
    ss, steps := Go(task, ss, steps, Read(true), Confined(task, s, pid));
  }

  lemma LetGo(task: Task, s: State, pid: int) returns (ss: seq<State>, steps: seq<Step>)
    requires Between(task, s) && s.asked < |task.cases|
    ensures IsPath(task, ss, steps) && ss[0] == Confined(task, s, pid) && ss[|steps|] == Running(task, s, pid)
    ensures Start(s.asked) in steps
  {
    var ref, t := CaseRef(task.id, task.cases[s.asked]), Confined(task, s, pid);
    var u := t.(toRunner := [], conn := Closed(t.conn, ref.Key()));
    assert [ReleaseUser(Some(ref))][1..] == [] && t.toJudger + [] == t.toJudger;
    ss, steps := Go(task, [t], [], Deliver, u);
    assert t.procs[s.asked := Proc(ref.id, Some(pid), Started)] == s.procs + [Proc(ref.id, Some(pid), Started)];
    ss, steps := Go(task, ss, steps, Start(s.asked), Running(task, s, pid));
  }

  lemma WindUp(task: Task, s: State, pid: int) returns (ss: seq<State>, steps: seq<Step>)
    requires Between(task, s) && s.asked < |task.cases|
    ensures IsPath(task, ss, steps) && ss[0] == Running(task, s, pid)
    ensures Between(task, ss[|steps|]) && ss[|steps|].asked == s.asked + 1
  {
    var ref, t := CaseRef(task.id, task.cases[s.asked]), Running(task, s, pid);
    var u := t.(procs := s.procs + [Proc(ref.id, Some(pid), Done)]);
    assert t.procs[s.asked := Proc(ref.id, Some(pid), Done)] == u.procs;
    ss, steps := Go(task, [t], [], Finish(s.asked), u.(toJudger := [CaseResult(ref.id)]));
    assert [CaseResult(ref.id)][1..] == [];
    ss, steps := Go(task, ss, steps, Read(true), u.(busy := false));
    assert t.conn.pending - {ref.Key()} == map[];
    ss, steps := Go(task, ss, steps, CleanUp(s.asked), u.(busy := false, conn := t.conn.(pending := map[])));
  }

  lemma Joined(task: Task, ss: seq<State>, steps: seq<Step>, ts: seq<State>, more: seq<Step>)
    returns (all: seq<State>, both: seq<Step>)
    requires IsPath(task, ss, steps) && IsPath(task, ts, more) && ts[0] == ss[|steps|]
    ensures IsPath(task, all, both) && all == ss + ts[1..] && both == steps + more && all[|both|] == ts[|more|]
  {
    hide CanStep, StepTo;
    all, both := ss + ts[1..], steps + more;
    forall i | 0 <= i < |both| ensures CanStep(task, all[i], both[i]) && all[i + 1] == StepTo(task, all[i], both[i]) {
      if i < |steps| {
        assert all[i] == ss[i] && all[i + 1] == ss[i + 1] && both[i] == steps[i];
      } else {
        var k := i - |steps|;
        assert all[i] == ts[k] && all[i + 1] == ts[k + 1] && both[i] == more[k];
      }
    }
  }

  /** The gate lets every program through: there is a run in which each case is asked for, confined, let go, started and
      read back, in order. */
  lemma {:induction false} EveryCaseCanRun(task: Task, command: string, n: nat)
    returns (run: seq<State>, steps: seq<Step>)
    requires task.rooted && n <= |task.cases|
    ensures IsRun(task, command, run, steps) && Between(task, run[|steps|]) && run[|steps|].asked == n
    ensures forall c | 0 <= c < n :: Start(c) in steps
  {
    if n == 0 {
      run, steps := [Begin(task, command)], [];
    } else {
      var before, first := EveryCaseCanRun(task, command, n - 1);
      var s := before[|first|];
      var ss, confining := Confine(task, s, 1);
      var ts, going := LetGo(task, s, 1);
      var us, ending := WindUp(task, s, 1);
      run, steps := Joined(task, before, first, ss, confining);
      run, steps := Joined(task, run, steps, ts, going);
      run, steps := Joined(task, run, steps, us, ending);
      assert steps == first + confining + going + ending;
    }
  }
}
