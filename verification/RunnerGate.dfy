/** The runner's side of the release gate: the connection loop that starts cases and lets their programs go. */
module RunnerGate {
  import opened Basics
  import opened Text

  // ---- keys ---------------------------------------------------------------

  const NUL: char := '\0'

  function ReleaseKey(task: string, id: string): string { task + [NUL] + id }

  predicate Safe(c: char) { 'a' <= c <= 'z' || 'A' <= c <= 'Z' || IsDigit(c) || c == '-' || c == '_' }

  function SafeOnly(s: string): (r: string)
    ensures forall c | c in r :: Safe(c)
  {
    if s == "" then "" else if Safe(s[0]) then [s[0]] + SafeOnly(s[1..]) else SafeOnly(s[1..])
  }

  /** `SafeCaseID`: every task id the judger uses has passed through it. */
  function SafeId(s: string): string { if SafeOnly(s) == "" then "case" else SafeOnly(s) }

  lemma SafeIdsHaveNoNul(s: string)
    ensures NUL !in SafeId(s)
  {}

  /** A filtered id is never empty, has only letters, digits, dashes and underscores, and is the id itself if that is of
      this kind. */
  lemma {:induction false} SafeIdMeans(s: string)
    ensures SafeId(s) != ""
    ensures forall c | c in SafeId(s) :: 'a' <= c <= 'z' || 'A' <= c <= 'Z' || '0' <= c <= '9' || c == '-' || c == '_'
    ensures (forall c | c in s :: 'a' <= c <= 'z' || 'A' <= c <= 'Z' || '0' <= c <= '9' || c == '-' || c == '_') ==>
              SafeId(s) == if s == "" then "case" else s
  {
    if forall c | c in s :: Safe(c) { SafeStays(s); }
  }

  lemma {:induction false} SafeStays(s: string)
    requires forall c | c in s :: Safe(c)
    ensures SafeOnly(s) == s
  {
    if s != "" {
      assert s[0] in s && s == [s[0]] + s[1..];
      SafeStays(s[1..]);
    }
  }

  /** Two cases of tasks with safe ids share a gate only if they are the same case of the same task. */
  lemma KeysIdentifyCases(task: string, id: string, task': string, id': string)
    ensures ReleaseKey(SafeId(task), id) == ReleaseKey(SafeId(task'), id') <==>
              SafeId(task) == SafeId(task') && id == id'
  {
    SafeIdsHaveNoNul(task);
    SafeIdsHaveNoNul(task');
    SplitFirst(SafeId(task), id, NUL);
    SplitFirst(SafeId(task'), id', NUL);
    var key, key' := ReleaseKey(SafeId(task), id), ReleaseKey(SafeId(task'), id');
    assert key[|SafeId(task)| + 1..] == id && key'[|SafeId(task')| + 1..] == id';
    assert key == SafeId(task) + [NUL] + id && key' == SafeId(task') + [NUL] + id';
    if key == key' { assert Split(key, NUL)[0] == SafeId(task) && Split(key', NUL)[0] == SafeId(task'); }
  }

  /** Unfiltered task ids could share a gate. */
  lemma RawKeysCollide()
    ensures ReleaseKey("a\0b", "c") == ReleaseKey("a", "b\0c")
  {}

  // ---- the connection -----------------------------------------------------

  datatype CaseRef = CaseRef(task: string, id: string) {
    function Key(): string { ReleaseKey(task, id) }
  }

  /** What the judger sends. A payload can be missing; `ours` says that a hello has the right role and version. */
  datatype Request =
    | Hello(ours: bool)
    | Compile(task: Option<string>, command: string)
    | RunCase(run: Option<CaseRef>)
    | ReleaseUser(target: Option<CaseRef>)
    | Bye
    | Other

  datatype Reply =
    | HelloBack
    | Compiled
    | UserPid(ref: CaseRef, pid: int)
    | CaseResult(id: string)
    | Error(text: string)
    | ByeBack

  /** `keys[c]` is the key the release channel c was made for; `closings` lists the channels closed, in order.
      Closing a channel twice is a crash. */
  datatype Conn = Conn(hello: bool, commands: map<string, string>, pending: map<string, nat>, keys: seq<string>,
                       closings: seq<nat>, over: bool)

  const FRESH := Conn(false, map[], map[], [], [], false)

  /** What happens to a connection: a message, with the compiler's success, or a case's goroutine returning. */
  datatype Event = Got(request: Request, built: bool) | Returned(key: string)

  function Refused(c: Conn, text: string): (Conn, seq<Reply>) { (c.(over := true), [Error(text)]) }

  function Answer(c: Conn, request: Request, built: bool): (Conn, seq<Reply>)
  {
    match request
    case Hello(ours) =>
      if c.hello || !ours then Refused(c, "invalid judger hello") else (c.(hello := true), [HelloBack])
    case Compile(task, command) =>
      if !c.hello then Refused(c, "judger hello required")
      else if task.None? then (c, [Error("compile request is empty")])
      else if command == "" then (c, [Error("user command is required")])
      else if !built then (c, [Error("compile failed")])
      else (c.(commands := c.commands[task.value := command]), [Compiled])
    case RunCase(run) =>
      if !c.hello then Refused(c, "judger hello required")
      else if run.None? then (c, [Error("run_case request is empty")])
      else if run.value.task !in c.commands then (c, [Error("task is not compiled")])
      else (Opened(c, run.value.Key()), [])
    case ReleaseUser(target) =>
      if !c.hello then Refused(c, "judger hello required")
      else if target.None? then (c, [Error("release_user request is empty")])
      else if target.value.Key() !in c.pending then (c, [Error("release target is not pending")])
      else (Closed(c, target.value.Key()), [])
    case Bye => (c.(over := true), [ByeBack])
    case Other => (c, [Error("unsupported message kind")])
  }

  function Opened(c: Conn, key: string): Conn
  {
    c.(pending := c.pending[key := |c.keys|], keys := c.keys + [key])
  }

  function Closed(c: Conn, key: string): Conn
    requires key in c.pending
  {
    c.(pending := c.pending - {key}, closings := c.closings + [c.pending[key]])
  }

  function After(c: Conn, event: Event): Conn
  {
    match event
    case Got(request, built) => if c.over then c else Answer(c, request, built).0
    case Returned(key) => c.(pending := c.pending - {key})
  }

  /** The connection after its first `n` events. */
  function Now(events: seq<Event>, n: nat): Conn
    requires n <= |events|
  {
    if n == 0 then FRESH else After(Now(events, n - 1), events[n - 1])
  }

  /** What each message does: when it ends the connection, opens or closes a channel, keeps a command, and when the
      answer is an error. */
  lemma AnswerMeans(c: Conn, request: Request, built: bool)
    requires !c.over
    ensures var (d, replies) := Answer(c, request, built);
            var greeted := c.hello || request.Hello? || request.Bye? || request.Other?;
            var fits := match request
                        case Hello(ours) => !c.hello && ours
                        case Compile(task, command) => c.hello && task.Some? && command != "" && built
                        case RunCase(run) => c.hello && run.Some? && run.value.task in c.commands
                        case ReleaseUser(target) => c.hello && target.Some? && target.value.Key() in c.pending
                        case Bye => true
                        case Other => false;
            && (d.over <==> request.Bye? || !greeted || (request.Hello? && !fits))
            && (d.hello <==> c.hello || (request.Hello? && fits))
            && (!fits <==> exists text :: replies == [Error(text)])
            && d.commands == (if request.Compile? && fits then c.commands[request.task.value := request.command]
                              else c.commands)
            && d.keys == (if request.RunCase? && fits then c.keys + [request.run.value.Key()] else c.keys)
            && d.closings == if request.ReleaseUser? && fits then c.closings + [c.pending[request.target.value.Key()]]
                             else c.closings
  {
    var (d, replies) := Answer(c, request, built);
    if |replies| == 1 && replies[0].Error? { assert replies == [Error(replies[0].text)]; }
  }

  // ---- channels are closed at most once -----------------------------------

  /** The pending channels are open, each under the key it was made for, and no newer channel has that key. */
  ghost predicate Sound(c: Conn)
  {
    && NoDup(c.closings) && (forall ch | ch in c.closings :: ch < |c.keys|)
    && (forall key | key in c.pending ::
          c.pending[key] < |c.keys| && c.keys[c.pending[key]] == key && c.pending[key] !in c.closings)
    && (forall key | key in c.pending :: forall d | c.pending[key] < d < |c.keys| :: c.keys[d] != key)
  }

  lemma OpenKeepsSound(c: Conn, key: string)
    requires Sound(c)
    ensures Sound(Opened(c, key))
  {}

  lemma CloseKeepsSound(c: Conn, key: string)
    requires Sound(c) && key in c.pending
    ensures Sound(Closed(c, key))
  {}

  lemma DropKeepsSound(c: Conn, key: string)
    requires Sound(c)
    ensures Sound(c.(pending := c.pending - {key}))
  {}

  /** What an answer does to the channels: nothing, open one, or close one. */
  lemma AnswerCases(c: Conn, request: Request, built: bool)
    ensures var c' := Answer(c, request, built).0;
            || (c'.pending, c'.keys, c'.closings) == (c.pending, c.keys, c.closings)
            || (request.RunCase? && request.run.Some? && c' == Opened(c, request.run.value.Key()))
            || (request.ReleaseUser? && request.target.Some? && request.target.value.Key() in c.pending
                && c' == Closed(c, request.target.value.Key()))
  {}

  lemma AnswerKeepsSound(c: Conn, request: Request, built: bool)
    requires Sound(c)
    ensures Sound(Answer(c, request, built).0)
  {
    AnswerCases(c, request, built);
    var c' := Answer(c, request, built).0;
    if (c'.pending, c'.keys, c'.closings) == (c.pending, c.keys, c.closings) {
    } else if request.RunCase? {
      OpenKeepsSound(c, request.run.value.Key());
    } else {
      CloseKeepsSound(c, request.target.value.Key());
    }
  }

  lemma StepKeepsSound(c: Conn, event: Event)
    requires Sound(c)
    ensures Sound(After(c, event))
  {
    match event
    case Returned(key) => DropKeepsSound(c, key);
    case Got(request, built) => if !c.over { AnswerKeepsSound(c, request, built); }
  }

  lemma KeysGrow(c: Conn, event: Event)
    ensures After(c, event).keys == c.keys || exists key :: Asks(event, key) && After(c, event).keys == c.keys + [key]
  {
    hide Answer;
    if event.Got? && !c.over { AnswerCases(c, event.request, event.built); }
  }

  lemma {:induction false} AlwaysSound(events: seq<Event>, n: nat)
    requires n <= |events|
    ensures Sound(Now(events, n))
  {
    if n > 0 {
      AlwaysSound(events, n - 1);
      StepKeepsSound(Now(events, n - 1), events[n - 1]);
    }
  }

  /** The event asks to run the case with this key. */
  predicate Asks(event: Event, key: string)
  {
    event.Got? && event.request.RunCase? && event.request.run.Some? && event.request.run.value.Key() == key
  }

  /** The event releases the case with this key. */
  predicate Releases(event: Event, key: string)
  {
    event.Got? && event.request.ReleaseUser? && event.request.target.Some? && event.request.target.value.Key() == key
  }

  ghost predicate OpenedAt(events: seq<Event>, ch: nat, i: nat, key: string)
  {
    i < |events| && Asks(events[i], key) && |Now(events, i).keys| == ch
  }

  /** Event `j` releases the key while `ch` is the newest channel with it. */
  ghost predicate ClosedAt(events: seq<Event>, ch: nat, j: nat, key: string)
  {
    && j < |events| && Releases(events[j], key) && ch < |Now(events, j).keys| && Now(events, j).keys[ch] == key
    && forall d | ch < d < |Now(events, j).keys| :: Now(events, j).keys[d] != key
  }

  lemma {:induction false} OpenedOnce(events: seq<Event>, n: nat, ch: nat)
    requires n <= |events| && ch < |Now(events, n).keys|
    ensures exists i: nat | i < n :: OpenedAt(events, ch, i, Now(events, n).keys[ch])
  {
    KeysGrow(Now(events, n - 1), events[n - 1]);
    if ch < |Now(events, n - 1).keys| {
      OpenedOnce(events, n - 1, ch);
      var i: nat :| i < n - 1 && OpenedAt(events, ch, i, Now(events, n - 1).keys[ch]);
    } else {
      assert OpenedAt(events, ch, n - 1, Now(events, n).keys[ch]);
    }
  }

  lemma NewlyClosed(c: Conn, event: Event, ch: nat)
    requires Sound(c) && ch in After(c, event).closings && ch !in c.closings
    ensures ch < |c.keys| && Releases(event, c.keys[ch])
    ensures forall d | ch < d < |c.keys| :: c.keys[d] != c.keys[ch]
  {
    hide Answer;
    if event.Got? && !c.over { AnswerCases(c, event.request, event.built); }
  }

  ghost predicate OwnRelease(events: seq<Event>, n: nat, ch: nat, key: string)
  {
    exists i: nat, j: nat | i < j < n :: OpenedAt(events, ch, i, key) && ClosedAt(events, ch, j, key)
  }

  /** Whatever the judger sends, and whenever the case goroutines return: no release channel is closed twice, and one
      that is closed was opened by a request to run some case and closed later by a release of that same case, with
      no newer channel for the case in between. */
  lemma {:induction false} ClosedOnceByItsOwnRelease(events: seq<Event>, n: nat)
    requires n <= |events|
    ensures NoDup(Now(events, n).closings)
    ensures forall ch | ch in Now(events, n).closings ::
              ch < |Now(events, n).keys| && OwnRelease(events, n, ch, Now(events, n).keys[ch])
  {
    AlwaysSound(events, n);
    forall ch | ch in Now(events, n).closings ensures OwnRelease(events, n, ch, Now(events, n).keys[ch]) {
      ClosedByOwnRelease(events, n, ch);
    }
  }

  lemma {:induction false} ClosedByOwnRelease(events: seq<Event>, n: nat, ch: nat)
    requires n <= |events| && ch in Now(events, n).closings && ch < |Now(events, n).keys|
    ensures OwnRelease(events, n, ch, Now(events, n).keys[ch])
  {
    var before, event := Now(events, n - 1), events[n - 1];
    AlwaysSound(events, n - 1);
    KeysGrow(before, event);
    var key := Now(events, n).keys[ch];
    if ch in before.closings {
      ClosedByOwnRelease(events, n - 1, ch);
      var i: nat, j: nat :| i < j < n - 1 && OpenedAt(events, ch, i, key) && ClosedAt(events, ch, j, key);
    } else {
      NewlyClosed(before, event, ch);
      assert ClosedAt(events, ch, n - 1, key);
      OpenedOnce(events, n - 1, ch);
      var i: nat :| i < n - 1 && OpenedAt(events, ch, i, key);
    }
  }

  /** A case is run only after a greeting and after its task was compiled, by messages of this connection. */
  lemma {:induction false} GreetedAndCompiled(events: seq<Event>, n: nat, task: string)
    requires n <= |events|
    ensures Now(events, n).hello ==> exists i | 0 <= i < n :: events[i].Got? && events[i].request == Hello(true)
    ensures task in Now(events, n).commands ==>
              exists i | 0 <= i < n ::
                && events[i].Got? && events[i].built && events[i].request.Compile?
                && events[i].request.task == Some(task)
                && events[i].request.command == Now(events, n).commands[task] != ""
    ensures Now(events, n).commands != map[] || Now(events, n).keys != [] ==> Now(events, n).hello
  {
    if n > 0 {
      GreetedAndCompiled(events, n - 1, task);
      var c, event := Now(events, n - 1), events[n - 1];
      if event.Got? && !c.over { AnswerMeans(c, event.request, event.built); }
      assert Now(events, n) == After(c, event);
    }
  }

  // ---- the connection as it is kept in place ------------------------------

  /** `handleRunnerConn`'s state. */
  class RunnerConn {
    var hello: bool
    var commands: map<string, string>
    var pending: map<string, nat>
    var keys: seq<string>
    var closings: seq<nat>
    var over: bool

    function View(): Conn
      reads this
    {
      Conn(hello, commands, pending, keys, closings, over)
    }

    constructor ()
      ensures View() == FRESH
    {
      hello, commands, pending, keys, closings, over := false, map[], map[], [], [], false;
    }

    /** One turn of the loop. */
    method Receive(request: Request, built: bool) returns (replies: seq<Reply>)
      requires !over && Sound(View())
      modifies this
      ensures (View(), replies) == Answer(old(View()), request, built)
      ensures Sound(View())
    {
      StepKeepsSound(View(), Got(request, built));
      match request {
        case Hello(ours) =>
          if hello || !ours {
            replies := Refuse("invalid judger hello");
          } else {
            hello := true;
            replies := [HelloBack];
          }
        case Compile(task, command) =>
          if !hello {
            replies := Refuse("judger hello required");
          } else if task.None? {
            replies := [Error("compile request is empty")];
          } else if command == "" {
            replies := [Error("user command is required")];
          } else if !built {
            replies := [Error("compile failed")];
          } else {
            commands := commands[task.value := command];
            replies := [Compiled];
          }
        case RunCase(run) =>
          if !hello {
            replies := Refuse("judger hello required");
          } else if run.None? {
            replies := [Error("run_case request is empty")];
          } else if run.value.task !in commands {
            replies := [Error("task is not compiled")];
          } else {
            var release := Open(run.value.Key());
            pending := pending[run.value.Key() := release];
            replies := [];
          }
        case ReleaseUser(target) =>
          if !hello {
            replies := Refuse("judger hello required");
          } else if target.None? {
            replies := [Error("release_user request is empty")];
          } else {
            var key := target.value.Key();
            if key in pending {
              var release := pending[key];
              pending := pending - {key};
              Close(release);
              replies := [];
            } else {
              replies := [Error("release target is not pending")];
            }
          }
        case Bye =>
          over := true;
          replies := [ByeBack];
        case Other =>
          replies := [Error("unsupported message kind")];
      }
    }

    method Refuse(text: string) returns (replies: seq<Reply>)
      modifies this`over
      ensures (View(), replies) == Refused(old(View()), text)
    {
      over := true;
      replies := [Error(text)];
    }

    /** make(chan struct{}). */
    method Open(key: string) returns (channel: nat)
      modifies this`keys
      ensures channel == |old(keys)| && keys == old(keys) + [key]
    {
      channel := |keys|;
      keys := keys + [key];
    }

    /** close: it panics on a closed channel. */
    method Close(channel: nat)
      requires channel < |keys| && channel !in closings
      modifies this`closings
      ensures closings == old(closings) + [channel]
    {
      closings := closings + [channel];
    }

    /** The deferred removal when a case's goroutine returns. */
    method Return(key: string)
      requires Sound(View())
      modifies this`pending
      ensures View() == After(old(View()), Returned(key))
      ensures Sound(View())
    {
      StepKeepsSound(View(), Returned(key));
      pending := pending - {key};
    }
  }
}
