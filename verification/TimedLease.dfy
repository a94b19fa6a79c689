/** Whether a lease can expire under a judger that is alive and sending heartbeats.

    Time is in nanoseconds. The lease response and every heartbeat round trip take at most `d`; within one
    round trip the server reads its clock, commits lease_until = that reading + 60 s, and the reply returns.
    A judger that refuses the task posts that result at once. Otherwise it sends one heartbeat; when that returns a
    ticker starts, and its loop sends the others one after another. Before it posts the result its main thread sends
    one more, except when the download failed; then the post, which the HTTP client ends after 30 s, and then the task
    is over and the loop stops. A judger that cannot set up its directory ends the task without a result. */
module TimedLease {
  import opened Basics
  import opened Judging

  const KEEPALIVE := 10 * SECOND
  const CLIENT_TIMEOUT := 30 * SECOND

  // ---- the reporter -------------------------------------------------------

  datatype TaskProgress = TaskProgress(stage: string, done: int, total: Option<int>)

  /** When `Flush` leaves without sending, for a stage that is not empty. */
  predicate Skips(elapsed: int, changed: bool, sameStage: bool)
  {
    (!changed && elapsed < KEEPALIVE) || (changed && sameStage && elapsed < SECOND)
  }

  class ProgressReporter {
    var current: TaskProgress
    var sent: TaskProgress
    var sentAt: int

    constructor ()
      ensures current == sent == TaskProgress("", 0, None) && sentAt == 0
    {
      current, sent, sentAt := TaskProgress("", 0, None), TaskProgress("", 0, None), 0;
    }

    method Update(stage: string, done: int, total: Option<int>)
      modifies this`current
      ensures current == if stage == "" then old(current) else TaskProgress(stage, done, total)
    {
      if stage != "" { current := TaskProgress(stage, done, total); }
    }

    /** The loop's flush: what it posts is the current progress, and it remembers when it last posted. */
    method Flush(now: int) returns (post: Option<TaskProgress>)
      modifies this`sent, this`sentAt
      ensures post.None? <==>
                || current.stage == ""
                || Skips(now - old(sentAt), current != old(sent), current.stage == old(sent).stage)
      ensures post.None? ==> sent == old(sent) && sentAt == old(sentAt)
      ensures post.Some? ==> post.value == sent == current && sentAt == now
      // a new stage is posted at once, another change after a second, the same again after ten
      ensures current.stage == "" ==> post.None?
      ensures current.stage != "" && current.stage != old(sent).stage ==> post.Some?
      ensures current.stage != "" && current.stage == old(sent).stage && current != old(sent) ==>
                (post.Some? <==> now - old(sentAt) >= 1_000_000_000)
      ensures current.stage != "" && current == old(sent) ==> (post.Some? <==> now - old(sentAt) >= 10_000_000_000)
    {
      var changed := current != sent;
      var elapsed := now - sentAt;
      if current.stage == "" || (!changed && elapsed < KEEPALIVE)
         || (changed && current.stage == sent.stage && elapsed < SECOND) {
        return None;
      }
      sent, sentAt := current, now;
      return Some(current);
    }

    method FlushNow(now: int) returns (post: Option<TaskProgress>)
      modifies this`sent, this`sentAt
      ensures post.None? <==> current.stage == ""
      ensures post.None? ==> sent == old(sent) && sentAt == old(sentAt)
      ensures post.Some? ==> post.value == sent == current && sentAt == now
    {
      if current.stage == "" { return None; }
      sent, sentAt := current, now;
      return Some(current);
    }
  }

  // ---- the timed system ---------------------------------------------------

  /** How far a heartbeat in flight has got. */
  datatype Phase = Unread | Read(stamp: int) | Committed

  /** The thread that sends: waiting for the lease response, for the ticker, or for a heartbeat's reply; not started,
      the task being refused. */
  datatype Loop = Responding | Ticking | Sending(sent: int, phase: Phase) | Off

  /** The main thread: working, waiting for the reply to its heartbeat, posting the result, done. */
  datatype Main = Working | Telling(sent: int, phase: Phase) | Posting(since: int) | Over

  /** `sentAt` is when a heartbeat was last sent; `tick` is the earliest tick the loop has not consumed; `started`
      says that the first heartbeat has returned, which starts ticker, loop and work. */
  datatype Clocked = Clocked(now: int, until: int, sentAt: int, tick: int, loop: Loop, main: Main, started: bool)

  function Leased(): Clocked { Clocked(0, LEASE, 0, 0, Responding, Working, false) }

  datatype Event =
    | Pass(to: int)
    | Receive                                   // the lease response comes
    | Refuse                                    // it comes, and the task is not valid
    | Check(changed: bool, sameStage: bool)
    | LoopRead | LoopCommit | LoopReturn
    | Fail                                      // the download fails
    | MainSend | MainRead | MainCommit | MainReturn
    | End

  /** The first tick after `now`, on the grid of `tick`: a ticker keeps one tick and drops the rest. */
  function NextTick(tick: int, now: int): (next: int)
    requires tick <= now
    ensures now < next <= now + SECOND
  {
    tick + SECOND * ((now - tick) / SECOND + 1)
  }

  predicate Happens(s: Clocked, e: Event, d: nat)
  {
    && !s.main.Over?
    && match e
       case Pass(to) =>
         && s.now <= to
         && (s.loop.Responding? ==> to <= d)
         && (s.loop.Ticking? ==> to <= Max(s.now, s.tick))
         && (s.loop.Sending? ==> to <= s.loop.sent + d)
         && (s.main.Telling? ==> to <= s.main.sent + d)
         && (s.main.Posting? ==> to <= s.main.since + CLIENT_TIMEOUT)
       case Receive => s.loop.Responding?
       case Refuse => s.loop.Responding?
       case Check(_, _) => s.loop.Ticking? && s.tick <= s.now
       case LoopRead => s.loop.Sending? && s.loop.phase.Unread?
       case LoopCommit => s.loop.Sending? && s.loop.phase.Read?
       case LoopReturn => s.loop.Sending? && s.loop.phase.Committed?
       case Fail => s.started && s.main.Working?
       case MainSend => s.started && s.main.Working?
       case MainRead => s.main.Telling? && s.main.phase.Unread?
       case MainCommit => s.main.Telling? && s.main.phase.Read?
       case MainReturn => s.main.Telling? && s.main.phase.Committed?
       case End => s.main.Posting? || (s.started && s.main.Working?)
  }

  function After(s: Clocked, e: Event, d: nat): Clocked
    requires Happens(s, e, d)
  {
    match e
    case Pass(to) => s.(now := to)
    case Receive => s.(loop := Sending(s.now, Unread), sentAt := s.now)
    case Refuse => s.(loop := Off, main := Posting(s.now))
    case Check(changed, sameStage) =>
      var ticked := s.(tick := NextTick(s.tick, s.now));
      if Skips(s.now - s.sentAt, changed, sameStage) then ticked
      else ticked.(loop := Sending(s.now, Unread), sentAt := s.now)
    case LoopRead => s.(loop := Sending(s.loop.sent, Read(s.now)))
    case LoopCommit => s.(loop := Sending(s.loop.sent, Committed), until := s.loop.phase.stamp + LEASE)
    case LoopReturn => s.(loop := Ticking, tick := if s.started then s.tick else s.now + SECOND, started := true)
    case Fail => s.(main := Posting(s.now))
    case MainSend => s.(main := Telling(s.now, Unread), sentAt := s.now)
    case MainRead => s.(main := Telling(s.main.sent, Read(s.now)))
    case MainCommit => s.(main := Telling(s.main.sent, Committed), until := s.main.phase.stamp + LEASE)
    case MainReturn => s.(main := Posting(s.now))
    case End => s.(main := Over)
  }

  ghost predicate IsSchedule(ss: seq<Clocked>, es: seq<Event>, d: nat)
  {
    && |ss| == |es| + 1 && ss[0] == Leased()
    && forall i | 0 <= i < |es| :: Happens(ss[i], es[i], d) && ss[i + 1] == After(ss[i], es[i], d)
  }

  // ---- the deadline argument ----------------------------------------------

  /** The latest moment at which the loop's next commit can come. */
  function LoopDue(s: Clocked, d: nat): int
  {
    match s.loop
    case Responding => 2 * d
    case Ticking => Max(Max(s.tick, s.now), s.sentAt + KEEPALIVE + SECOND) + d
    case Sending(sent, Committed) => Max(sent + d + SECOND, s.sentAt + KEEPALIVE + SECOND) + d
    case Sending(sent, _) => sent + d
    case Off => s.now + d
  }

  /** The latest moment at which the next commit of either thread can come, or the task's end if that is earlier. */
  function Due(s: Clocked, d: nat): int
  {
    match s.main
    case Telling(sent, Committed) => Min(LoopDue(s, d), sent + d + CLIENT_TIMEOUT)
    case Telling(sent, _) => Min(LoopDue(s, d), sent + d)
    case Posting(since) => if s.loop.Off? then since + CLIENT_TIMEOUT else Min(LoopDue(s, d), since + CLIENT_TIMEOUT)
    case _ => LoopDue(s, d)
  }

  predicate Timely(sent: int, phase: Phase, now: int, d: nat)
  {
    && sent <= now <= sent + d
    && (phase.Read? ==> sent <= phase.stamp <= now)
  }

  /** Every deadline ahead falls within the lease in force. */
  ghost predicate OnTime(s: Clocked, d: nat)
  {
    && 0 <= s.sentAt <= s.now
    && (s.loop.Responding? ==> s.now <= d && s.until == LEASE && !s.started)
    && (s.loop.Ticking? ==> s.started)
    && (s.started ==> s.tick <= s.now + SECOND)
    && (s.loop.Sending? ==> Timely(s.loop.sent, s.loop.phase, s.now, d) && s.loop.sent <= s.sentAt
                            && (s.started ==> s.tick <= s.loop.sent + SECOND))
    && (!s.started ==> s.main.Working? || s.loop.Off?)
    && (s.loop.Off? ==> s.main.Over? || s.main.Posting?)
    && (s.main.Telling? ==> Timely(s.main.sent, s.main.phase, s.now, d))
    && (s.main.Posting? ==> s.main.since <= s.now <= s.main.since + CLIENT_TIMEOUT)
    && (!s.main.Over? ==> Due(s, d) <= s.until)
  }

  /** Only the loop has sent heartbeats. */
  predicate LoopAlone(s: Clocked)
  {
    !s.main.Telling? && (s.loop.Sending? ==> s.sentAt == s.loop.sent)
  }

  /** The bound for a whole task, and the weaker one for as long as only the loop has sent heartbeats. */
  ghost predicate WithinBound(s: Clocked, e: Event, d: nat, whole: bool)
  {
    if whole then 2 * d + KEEPALIVE + SECOND <= LEASE
    else 2 * d + SECOND <= LEASE && LoopAlone(s) && !e.MainSend?
  }

  lemma ClockKeepsOnTime(s: Clocked, e: Event, d: nat, whole: bool)
    requires OnTime(s, d) && Happens(s, e, d) && WithinBound(s, e, d, whole) && e.Pass?
    ensures OnTime(After(s, e, d), d)
  {}

  lemma LoopKeepsOnTime(s: Clocked, e: Event, d: nat, whole: bool)
    requires OnTime(s, d) && Happens(s, e, d) && WithinBound(s, e, d, whole)
    requires e.Receive? || e.Check? || e.LoopRead?
    ensures OnTime(After(s, e, d), d)
  {}

  lemma CommitKeepsOnTime(s: Clocked, e: Event, d: nat, whole: bool)
    requires OnTime(s, d) && Happens(s, e, d) && WithinBound(s, e, d, whole)
    requires e.LoopCommit?
    ensures OnTime(After(s, e, d), d)
  {}

  lemma ReturnKeepsOnTime(s: Clocked, e: Event, d: nat, whole: bool)
    requires OnTime(s, d) && Happens(s, e, d) && WithinBound(s, e, d, whole)
    requires e.LoopReturn?
    ensures OnTime(After(s, e, d), d)
  {}

  lemma MainKeepsOnTime(s: Clocked, e: Event, d: nat, whole: bool)
    requires OnTime(s, d) && Happens(s, e, d) && WithinBound(s, e, d, whole)
    requires e.Refuse? || e.Fail? || e.MainSend? || e.MainRead? || e.MainCommit? || e.MainReturn? || e.End?
    ensures OnTime(After(s, e, d), d)
  {}

  lemma EventKeepsOnTime(s: Clocked, e: Event, d: nat, whole: bool)
    requires OnTime(s, d) && Happens(s, e, d) && WithinBound(s, e, d, whole)
    ensures OnTime(After(s, e, d), d)
    ensures !whole ==> LoopAlone(After(s, e, d))
  {
    if e.Pass? { ClockKeepsOnTime(s, e, d, whole); }
    else if e.Receive? || e.Check? || e.LoopRead? { LoopKeepsOnTime(s, e, d, whole); }
    else if e.LoopCommit? { CommitKeepsOnTime(s, e, d, whole); }
    else if e.LoopReturn? { ReturnKeepsOnTime(s, e, d, whole); }
    else { MainKeepsOnTime(s, e, d, whole); }
  }

  lemma {:induction false} SchedulesAreOnTime(ss: seq<Clocked>, es: seq<Event>, d: nat, n: nat, whole: bool)
    requires IsSchedule(ss, es, d) && n < |ss|
    requires if whole then 2 * d + KEEPALIVE + SECOND <= LEASE
             else 2 * d + SECOND <= LEASE && forall i | 0 <= i < |es| :: !es[i].MainSend?
    ensures OnTime(ss[n], d) && (!whole ==> LoopAlone(ss[n]))
  {
    if n > 0 {
      SchedulesAreOnTime(ss, es, d, n - 1, whole);
      EventKeepsOnTime(ss[n - 1], es[n - 1], d, whole);
    }
  }

  lemma OnTimeIsUnexpired(s: Clocked, d: nat)
    requires OnTime(s, d) && !s.main.Over?
    ensures s.now <= s.until
  {}

  /** The row the timed system is about, as `tryLease` sees it. */
  ghost predicate StaysOurs(s: Clocked)
  {
    forall row: Row, clock | row.status.Judging? && row.until == Some(s.until) && clock <= s.now ::
      !Leasable(row, clock)
  }

  /** Until the task is over, no other judger can be leased the submission if 2d + 11 s is at most 60 s. */
  lemma LeaseOutlivesTask(ss: seq<Clocked>, es: seq<Event>, d: nat, n: nat)
    requires IsSchedule(ss, es, d) && n < |ss| && 2 * d + KEEPALIVE + SECOND <= LEASE
    ensures !ss[n].main.Over? ==> ss[n].now <= ss[n].until && StaysOurs(ss[n])
  {
    SchedulesAreOnTime(ss, es, d, n, true);
    if !ss[n].main.Over? { OnTimeIsUnexpired(ss[n], d); }
  }

  /** In a task whose main thread sends no heartbeat the loop keeps the lease if 2d + 1 s is at most 60 s. */
  lemma LeaseOutlivesLoopAlone(ss: seq<Clocked>, es: seq<Event>, d: nat, n: nat)
    requires IsSchedule(ss, es, d) && n < |ss| && 2 * d + SECOND <= LEASE
    requires forall i | 0 <= i < |es| :: !es[i].MainSend?
    ensures !ss[n].main.Over? ==> ss[n].now <= ss[n].until && StaysOurs(ss[n])
  {
    SchedulesAreOnTime(ss, es, d, n, false);
    if !ss[n].main.Over? { OnTimeIsUnexpired(ss[n], d); }
  }

  // ---- the bounds are exact -----------------------------------------------

  lemma Extend(ss: seq<Clocked>, es: seq<Event>, d: nat, e: Event, next: Clocked)
    returns (ss': seq<Clocked>, es': seq<Event>)
    requires IsSchedule(ss, es, d) && Happens(ss[|ss| - 1], e, d) && After(ss[|ss| - 1], e, d) == next
    ensures IsSchedule(ss', es', d) && ss' == ss + [next] && es' == es + [e]
  {
    ss', es' := ss + [next], es + [e];
  }

  ghost predicate NoMainSend(es: seq<Event>) { forall i | 0 <= i < |es| :: !es[i].MainSend? }

  /** The response and the first heartbeat's commit take no time; its reply takes `reply`. */
  lemma FirstHeartbeat(d: nat, reply: nat) returns (ss: seq<Clocked>, es: seq<Event>)
    requires reply <= d
    ensures IsSchedule(ss, es, d) && NoMainSend(es)
    ensures ss[|ss| - 1] == Clocked(reply, LEASE, 0, reply + SECOND, Ticking, Working, true)
  {
    var s := Leased().(loop := Sending(0, Unread));
    ss, es := Extend([Leased()], [], d, Receive, s);
    ss, es := Extend(ss, es, d, LoopRead, s.(loop := Sending(0, Read(0))));
    ss, es := Extend(ss, es, d, LoopCommit, s.(loop := Sending(0, Committed)));
    ss, es := Extend(ss, es, d, Pass(reply), s.(loop := Sending(0, Committed), now := reply));
    ss, es := Extend(ss, es, d, LoopReturn, Clocked(reply, LEASE, 0, reply + SECOND, Ticking, Working, true));
  }

  /** The first reply comes late, the ticker starts only then, and the loop's first heartbeat is late too. */
  lemma LateStartExpiresLease(d: nat) returns (ss: seq<Clocked>, es: seq<Event>)
    requires 2 * d + SECOND > LEASE
    ensures IsSchedule(ss, es, d) && NoMainSend(es)
    ensures ss[|ss| - 1].main.Working? && ss[|ss| - 1].until < ss[|ss| - 1].now
  {
    ss, es := FirstHeartbeat(d, d);
    var s := Clocked(d + SECOND, LEASE, 0, d + SECOND, Ticking, Working, true);
    ss, es := Extend(ss, es, d, Pass(d + SECOND), s);
    s := s.(tick := d + 2 * SECOND, loop := Sending(d + SECOND, Unread), sentAt := d + SECOND);
    ss, es := Extend(ss, es, d, Check(true, false), s);
    ss, es := Extend(ss, es, d, Pass(2 * d + SECOND), s.(now := 2 * d + SECOND));
  }

  /** While only the loop sends, no schedule lets the lease expire exactly when 2d + 1 s is at most 60 s. */
  lemma LoopBoundIsExact(d: nat)
    ensures 2 * d + SECOND <= LEASE <==>
            forall ss: seq<Clocked>, es: seq<Event>, n: nat | IsSchedule(ss, es, d) && NoMainSend(es) && n < |ss| ::
              ss[n].main.Over? || ss[n].now <= ss[n].until
  {
    if 2 * d + SECOND <= LEASE {
      forall ss: seq<Clocked>, es: seq<Event>, n: nat | IsSchedule(ss, es, d) && NoMainSend(es) && n < |ss|
        ensures ss[n].main.Over? || ss[n].now <= ss[n].until
      {
        LeaseOutlivesLoopAlone(ss, es, d, n);
      }
    } else {
      var ss, es := LateStartExpiresLease(d);
      assert IsSchedule(ss, es, d) && ss[|ss| - 1].until < ss[|ss| - 1].now;
    }
  }

  /** Every task can end, with any delay: refused, its download failed, without a result, or with one after the main
      thread's heartbeat. */
  lemma TasksEnd(d: nat, way: Event) returns (ss: seq<Clocked>, es: seq<Event>)
    requires way in {Refuse, Fail, End, MainSend}
    ensures IsSchedule(ss, es, d) && way in es && ss[|ss| - 1].main == Over
  {
    if way == Refuse {
      var t := Leased().(loop := Off, main := Posting(0));
      ss, es := Extend([Leased()], [], d, Refuse, t);
      ss, es := Extend(ss, es, d, End, t.(main := Over));
    } else {
      ss, es := FirstHeartbeat(d, 0);
      var s := ss[|ss| - 1];
      if way == Fail {
        ss, es := Extend(ss, es, d, Fail, s.(main := Posting(0)));
      } else if way == MainSend {
        ss, es := TellAndPost(ss, es, d, s);
      }
      ss, es := Extend(ss, es, d, End, s.(main := Over));
    }
  }

  lemma TellAndPost(ss: seq<Clocked>, es: seq<Event>, d: nat, s: Clocked) returns (ss': seq<Clocked>, es': seq<Event>)
    requires IsSchedule(ss, es, d) && ss[|ss| - 1] == s
    requires s == Clocked(0, LEASE, 0, SECOND, Ticking, Working, true)
    ensures IsSchedule(ss', es', d) && ss'[|ss'| - 1] == s.(main := Posting(0)) && MainSend in es'
  {
    ss', es' := Extend(ss, es, d, MainSend, s.(main := Telling(0, Unread)));
    ss', es' := Extend(ss', es', d, MainRead, s.(main := Telling(0, Read(0))));
    ss', es' := Extend(ss', es', d, MainCommit, s.(main := Telling(0, Committed)));
    ss', es' := Extend(ss', es', d, MainReturn, s.(main := Posting(0)));
  }

  /** The moment, two to three seconds into the task, from which a heartbeat that takes `d` ends just after a tick. */
  function Awkward(d: nat): int { 2 * SECOND + (1 - d as int) % SECOND }

  /** After `k` more ticks at which nothing has changed, less than ten seconds after the last heartbeat. */
  lemma {:induction false} Idle(ss: seq<Clocked>, es: seq<Event>, d: nat, s: Clocked, k: nat)
    returns (ss': seq<Clocked>, es': seq<Event>)
    requires IsSchedule(ss, es, d) && ss[|ss| - 1] == s && s.loop.Ticking? && s.main.Telling?
    requires s.tick == s.now + SECOND - 1 && s.sentAt == s.now && k <= 10 && s.now + 10 * SECOND <= s.main.sent + d
    ensures IsSchedule(ss', es', d)
    ensures ss'[|ss'| - 1] == if k == 0 then s else s.(now := s.now + k * SECOND - 1, tick := s.tick + k * SECOND)
  {
    if k == 0 {
      ss', es' := ss, es;
    } else {
      ss', es' := Idle(ss, es, d, s, k - 1);
      var t := ss'[|ss'| - 1];
      var u := t.(now := s.now + k * SECOND - 1);
      ss', es' := Extend(ss', es', d, Pass(s.now + k * SECOND - 1), u);
      ss', es' := Extend(ss', es', d, Check(false, true), u.(tick := s.tick + k * SECOND));
    }
  }

  lemma AwkwardTick(d: nat)
    ensures var c := Awkward(d);
            2 * SECOND <= c < 3 * SECOND && (d >= SECOND ==> NextTick(3 * SECOND, c + d) == c + d + SECOND - 1)
  {
    var c, k := Awkward(d), (1 - d as int) / SECOND;
    assert (1 - d as int) % SECOND == 1 - d - SECOND * k;
    assert c + d == 1 + SECOND * (2 - k);
    if d >= SECOND { OneAfter(2 - k); }
  }

  lemma OneAfter(m: int)
    requires 1 + SECOND * m >= 3 * SECOND
    ensures NextTick(3 * SECOND, 1 + SECOND * m) == SECOND * (m + 1)
  {
    assert (1 + SECOND * m - 3 * SECOND) / SECOND == m - 3 by {
      assert 1 + SECOND * m - 3 * SECOND == SECOND * (m - 3) + 1;
    }
  }

  /** The loop has sent two heartbeats, the second at `c`; the server has read its clock for it and commits last. */
  lemma TwoHeartbeats(d: nat) returns (ss: seq<Clocked>, es: seq<Event>)
    requires d >= 2 * SECOND
    ensures var c := Awkward(d);
            IsSchedule(ss, es, d)
            && ss[|ss| - 1] == Clocked(c, LEASE + SECOND, c, 3 * SECOND, Sending(c, Read(c)), Working, true)
  {
    AwkwardTick(d);
    var c := Awkward(d);
    ss, es := FirstHeartbeat(d, 0);
    var s := Clocked(SECOND, LEASE, 0, SECOND, Ticking, Working, true);
    ss, es := Extend(ss, es, d, Pass(SECOND), s);
    s := s.(tick := 2 * SECOND, loop := Sending(SECOND, Unread), sentAt := SECOND);
    ss, es := Extend(ss, es, d, Check(true, false), s);
    ss, es := Extend(ss, es, d, LoopRead, s.(loop := Sending(SECOND, Read(SECOND))));
    s := s.(loop := Sending(SECOND, Committed), until := LEASE + SECOND);
    ss, es := Extend(ss, es, d, LoopCommit, s);
    ss, es := Extend(ss, es, d, Pass(c), s.(now := c));
    s := s.(now := c, loop := Ticking);
    ss, es := Extend(ss, es, d, LoopReturn, s);
    s := s.(tick := 3 * SECOND, loop := Sending(c, Unread), sentAt := c);
    ss, es := Extend(ss, es, d, Check(true, false), s);
    ss, es := Extend(ss, es, d, LoopRead, s.(loop := Sending(c, Read(c))));
  }

  /** The main thread's heartbeat overtakes it, and has postponed the loop's next one. */
  lemma Overtaken(d: nat) returns (ss: seq<Clocked>, es: seq<Event>)
    requires d >= 2 * SECOND
    ensures var c, e := Awkward(d), Awkward(d) + d;
            IsSchedule(ss, es, d)
            && ss[|ss| - 1] == Clocked(e, c + LEASE, e, e + SECOND - 1, Ticking, Telling(e, Committed), true)
  {
    AwkwardTick(d);
    var c, e := Awkward(d), Awkward(d) + d;
    ss, es := TwoHeartbeats(d);
    var s := ss[|ss| - 1].(now := e);
    ss, es := Extend(ss, es, d, Pass(e), s);
    s := s.(main := Telling(e, Unread), sentAt := e);
    ss, es := Extend(ss, es, d, MainSend, s);
    ss, es := Extend(ss, es, d, MainRead, s.(main := Telling(e, Read(e))));
    s := s.(main := Telling(e, Committed), until := e + LEASE);
    ss, es := Extend(ss, es, d, MainCommit, s);
    s := s.(loop := Sending(c, Committed), until := c + LEASE);
    ss, es := Extend(ss, es, d, LoopCommit, s);
    s := s.(loop := Ticking);
    ss, es := Extend(ss, es, d, LoopReturn, s);
    ss, es := Extend(ss, es, d, Check(false, true), s.(tick := e + SECOND - 1));
  }

  /** A heartbeat of the loop is committed after the main thread's later one, and sets the lease back; the next one is
      not due for ten seconds and comes almost eleven seconds later, while the result is still being posted. */
  lemma StaleCommitExpiresLease(d: nat) returns (ss: seq<Clocked>, es: seq<Event>)
    requires 2 * d + KEEPALIVE + SECOND > LEASE
    ensures IsSchedule(ss, es, d) && !ss[|ss| - 1].main.Over? && ss[|ss| - 1].until < ss[|ss| - 1].now
  {
    var c, e := Awkward(d), Awkward(d) + d;
    ss, es := Overtaken(d);
    ss, es := Idle(ss, es, d, ss[|ss| - 1], 10);
    var late := e + 11 * SECOND - 1;
    var s := ss[|ss| - 1].(now := late);
    ss, es := Extend(ss, es, d, Pass(late), s);
    s := s.(tick := late + SECOND, loop := Sending(late, Unread), sentAt := late);
    ss, es := Extend(ss, es, d, Check(false, true), s);
    s := s.(now := e + d);
    ss, es := Extend(ss, es, d, Pass(e + d), s);
    s := s.(main := Posting(e + d));
    ss, es := Extend(ss, es, d, MainReturn, s);
    ss, es := Extend(ss, es, d, Pass(late + d), s.(now := late + d));
  }

  /** No schedule lets the lease expire before the task is over exactly when 2d + 11 s is at most 60 s. */
  lemma TaskBoundIsExact(d: nat)
    ensures 2 * d + KEEPALIVE + SECOND <= LEASE <==>
            forall ss: seq<Clocked>, es: seq<Event>, n: nat | IsSchedule(ss, es, d) && n < |ss| ::
              ss[n].main.Over? || ss[n].now <= ss[n].until
  {
    if 2 * d + KEEPALIVE + SECOND <= LEASE {
      forall ss: seq<Clocked>, es: seq<Event>, n: nat | IsSchedule(ss, es, d) && n < |ss|
        ensures ss[n].main.Over? || ss[n].now <= ss[n].until
      {
        LeaseOutlivesTask(ss, es, d, n);
      }
    } else {
      var ss, es := StaleCommitExpiresLease(d);
      assert IsSchedule(ss, es, d) && ss[|ss| - 1].until < ss[|ss| - 1].now;
    }
  }
}
