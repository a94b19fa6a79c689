/** The event broker, and why a parked long poll is not left asleep over a submission it was told about. */
module Wakeups {
  datatype Event = Event(kind: string)

  const CAPACITY := 16

  // ---- the broker ---------------------------------------------------------

  type Channels = map<nat, seq<Event>>

  /** A send that would block is dropped. */
  function Deliver(buffer: seq<Event>, event: Event): seq<Event>
  {
    if |buffer| < CAPACITY then buffer + [event] else buffer
  }

  function DeliverAll(channels: Channels, event: Event): Channels
  {
    map ch | ch in channels :: Deliver(channels[ch], event)
  }

  class Broker {
    var channels: Channels
    var next: nat

    ghost predicate Valid()
      reads this
    {
      && (forall ch | ch in channels :: ch < next)
      && (forall ch | ch in channels :: |channels[ch]| <= CAPACITY)
    }

    constructor ()
      ensures Valid() && channels == map[]
    {
      channels, next := map[], 0;
    }

    method Subscribe() returns (ch: nat)
      requires Valid()
      modifies this
      ensures Valid() && ch !in old(channels) && channels == old(channels)[ch := []]
    {
      ch := next;
      channels, next := channels[ch := []], next + 1;
    }

    method Unsubscribe(ch: nat)
      requires Valid()
      modifies this
      ensures Valid() && channels == old(channels) - {ch}
    {
      channels := channels - {ch};
    }

    /** Every subscriber gets the event if its buffer has room; no subscriber delays another. */
    method Publish(kind: string)
      requires Valid()
      modifies this
      ensures Valid() && channels == DeliverAll(old(channels), Event(kind))
      ensures channels.Keys == old(channels).Keys && forall ch | ch in channels ::
        channels[ch] == if |old(channels)[ch]| < 16 then old(channels)[ch] + [Event(kind)] else old(channels)[ch]
    {
      var event := Event(kind);
      var todo := channels.Keys;
      while todo != {}
        invariant Valid() && todo <= channels.Keys == old(channels).Keys
        invariant forall ch | ch in channels ::
          channels[ch] == if ch in todo then old(channels)[ch] else Deliver(old(channels)[ch], event)
        decreases todo
      {
        var ch :| ch in todo;
        todo := todo - {ch};
        if |channels[ch]| < CAPACITY { channels := channels[ch := channels[ch] + [event]]; }
      }
    }

    method Receive(ch: nat) returns (event: Event)
      requires Valid() && ch in channels && channels[ch] != []
      modifies this
      ensures Valid() && channels == old(channels)[ch := old(channels)[ch][1..]] && event == old(channels)[ch][0]
    {
      event := channels[ch][0];
      channels := channels[ch := channels[ch][1..]];
    }
  }

  // ---- long polls against submits and rejudges ----------------------------

  /** Submissions waiting in the queue; those committed by a submit or rejudge whose event is not published yet; those
      on which another transaction holds the row lock, which lease queries skip; those whose latest lease still has its
      payload built; those handed out and not finished; the channels of the long polls; and the long polls that found
      nothing and wait. */
  datatype Hub = Hub(queued: set<nat>, unannounced: set<nat>, locked: set<nat>, building: set<nat>, judging: set<nat>,
                     channels: Channels, parked: set<nat>)

  const QUIET := Hub({}, {}, {}, {}, {}, map[], {})

  datatype Move =
    | Commit(ids: set<nat>)             // a submit or rejudge puts rows into the queue
    | Announce(ids: set<nat>)           // and publishes its event
    | Noise(event: Event)               // any other event
    | Lock(id: nat)                     // some transaction locks a queued row: a lease, or a heartbeat or result
                                        // that speaks for a superseded attempt
    | Unlock(id: nat)                   // and ends without changing it
    | Take(id: nat)                     // and commits as a lease
    | Reset(id: nat)                    // the build after a lease fails
    | HandOut(id: nat)                  // or succeeds
    | Finish(id: nat)                   // a result is applied
    | Subscribe(poll: nat)
    | TryFinds(poll: nat, id: nat)      // the poll leases a queued row
    | TryRenews(poll: nat, id: nat)     // or one whose lease has expired
    | TryFindsNone(poll: nat)
    | Wake(poll: nat)
    | Timer(poll: nat)
    | Leave(poll: nat)

  predicate Active(h: Hub, poll: nat) { poll in h.channels && poll !in h.parked }

  predicate Possible(h: Hub, m: Move)
  {
    match m
    case Commit(ids) => ids !! h.locked
    case Announce(ids) => ids <= h.unannounced
    case Lock(id) => id in h.queued && id !in h.locked
    case Unlock(id) => id in h.locked
    case Take(id) => id in h.locked
    case Reset(id) => id in h.building
    case HandOut(id) => id in h.building
    case Finish(id) => id in h.judging
    case Subscribe(poll) => poll !in h.channels
    case TryFinds(poll, id) => Active(h, poll) && id in h.queued && id !in h.locked
    case TryRenews(poll, id) => Active(h, poll) && id in h.building + h.judging
    case TryFindsNone(poll) => Active(h, poll) && h.queued <= h.locked
    case Wake(poll) => poll in h.parked && poll in h.channels && h.channels[poll] != []
    case Timer(poll) => poll in h.parked
    case _ => true
  }

  function Moved(h: Hub, m: Move): Hub
    requires Possible(h, m)
  {
    match m
    case Commit(ids) =>
      h.(queued := h.queued + ids, unannounced := h.unannounced + ids, building := h.building - ids,
         judging := h.judging - ids)
    case Announce(ids) =>
      h.(unannounced := h.unannounced - ids, channels := DeliverAll(h.channels, Event("submission")))
    case Noise(event) => h.(channels := DeliverAll(h.channels, event))
    case Lock(id) => h.(locked := h.locked + {id})
    case Unlock(id) => h.(locked := h.locked - {id})
    case Take(id) =>
      h.(queued := h.queued - {id}, locked := h.locked - {id}, building := h.building + {id})
    case Reset(id) => h.(queued := h.queued + {id}, building := h.building - {id})
    case HandOut(id) => h.(building := h.building - {id}, judging := h.judging + {id})
    case Finish(id) => h.(judging := h.judging - {id})
    case Subscribe(poll) => h.(channels := h.channels[poll := []])
    case TryFinds(poll, id) =>
      h.(queued := h.queued - {id}, building := h.building + {id}, channels := h.channels - {poll})
    case TryRenews(poll, id) =>
      h.(building := h.building + {id}, judging := h.judging - {id}, channels := h.channels - {poll})
    case TryFindsNone(poll) => h.(parked := h.parked + {poll})
    case Wake(poll) => h.(channels := h.channels[poll := h.channels[poll][1..]], parked := h.parked - {poll})
    case Timer(poll) => h.(parked := h.parked - {poll})
    case Leave(poll) => h.(channels := h.channels - {poll}, parked := h.parked - {poll})
  }

  ghost predicate IsPlay(hs: seq<Hub>, ms: seq<Move>)
  {
    && |hs| == |ms| + 1 && hs[0] == QUIET
    && forall i | 0 <= i < |ms| :: Possible(hs[i], ms[i]) && hs[i + 1] == Moved(hs[i], ms[i])
  }

  /** The poll waits, and nothing in its channel will wake it. */
  predicate Asleep(h: Hub, poll: nat) { poll in h.parked && poll in h.channels && h.channels[poll] == [] }

  /** No poll sleeps over a submission: while one is asleep, each queued submission is about to be announced, or another
      transaction holds its row. */
  ghost predicate Awake(h: Hub)
  {
    && h.parked <= h.channels.Keys
    && forall poll | Asleep(h, poll) :: h.queued <= h.unannounced + h.locked
  }

  /** While a poll is asleep, a submission becomes free to be leased without an event to come: a failed build puts it
      back, or a transaction that locked it lets go of it unchanged. */
  ghost predicate Oversleeps(h: Hub, m: Move)
  {
    && (exists poll :: Asleep(h, poll))
    && match m
       case Reset(id) => id !in h.unannounced && id !in h.locked
       case Unlock(id) => id in h.queued && id !in h.unannounced
       case _ => false
  }

  /** These two moves are the only ones that can make a poll sleep over a submission, and they always do. */
  lemma MoveKeepsAwake(h: Hub, m: Move)
    requires Awake(h) && Possible(h, m)
    ensures Awake(Moved(h, m)) <==> !Oversleeps(h, m)
  {
    var after := Moved(h, m);
    if Oversleeps(h, m) {
      var poll :| Asleep(h, poll);
      assert Asleep(after, poll) && m.id in after.queued;
    } else {
      forall poll | Asleep(after, poll) ensures after.queued <= after.unannounced + after.locked {
        if !m.TryFindsNone? && !m.Announce? && !m.Noise? { assert Asleep(h, poll); }
      }
    }
  }

  /** Over every run, however many events full buffers dropped: no poll ever sleeps over a submission, if and only if
      while a poll was asleep no build failed and no transaction let go of a queued row it had locked, with no event to
      come for that row. */
  lemma {:induction false} NoLostWakeup(hs: seq<Hub>, ms: seq<Move>, n: nat)
    requires IsPlay(hs, ms) && n < |hs|
    ensures (forall i | 0 <= i <= n :: Awake(hs[i])) <==> forall i | 0 <= i < n :: !Oversleeps(hs[i], ms[i])
  {
    if n > 0 {
      NoLostWakeup(hs, ms, n - 1);
      assert Possible(hs[n - 1], ms[n - 1]) && hs[n - 1 + 1] == Moved(hs[n - 1], ms[n - 1]);
      if Awake(hs[n - 1]) { MoveKeepsAwake(hs[n - 1], ms[n - 1]); }
    }
  }

  // ---- no submission is lost ----------------------------------------------

  /** Submissions that are neither finished nor yet to come. */
  function Unfinished(h: Hub): set<nat> { h.queued + h.building + h.judging }

  /** Over every run each unfinished submission is in one place; it comes with a submit or rejudge and goes with a
      result, and no other move brings or loses one. */
  lemma {:induction false} NothingIsLost(hs: seq<Hub>, ms: seq<Move>, n: nat)
    requires IsPlay(hs, ms) && n < |hs|
    ensures hs[n].queued !! hs[n].building !! hs[n].judging && hs[n].locked <= hs[n].queued
    ensures n > 0 ==> Unfinished(hs[n]) == match ms[n - 1]
                                           case Commit(ids) => Unfinished(hs[n - 1]) + ids
                                           case Finish(id) => Unfinished(hs[n - 1]) - {id}
                                           case _ => Unfinished(hs[n - 1])
  {
    if n > 0 {
      NothingIsLost(hs, ms, n - 1);
      assert Possible(hs[n - 1], ms[n - 1]) && hs[n - 1 + 1] == Moved(hs[n - 1], ms[n - 1]);
    }
  }

  /** A poll that was given a task, or left, is unsubscribed. */
  lemma ServedPollsLeave(h: Hub, m: Move)
    requires Possible(h, m) && (m.TryFinds? || m.TryRenews? || m.Leave?)
    ensures Moved(h, m).channels == h.channels - {m.poll} && m.poll !in Moved(h, m).parked
  {}

  /** A poll that sleeps over a submission leases it once a timer of its own, or any event, has woken it. */
  lemma WokenPollsFind(h: Hub, poll: nat, id: nat, event: Event)
    requires Asleep(h, poll) && id in h.queued && id !in h.locked
    ensures Possible(h, Timer(poll)) && Possible(Moved(h, Timer(poll)), TryFinds(poll, id))
    ensures var told := Moved(h, Noise(event));
            && Possible(told, Wake(poll)) && Possible(Moved(told, Wake(poll)), TryFinds(poll, id))
            && id in Moved(Moved(told, Wake(poll)), TryFinds(poll, id)).building
  {
    assert Deliver([], event) == [event];
  }

  // ---- both causes are real -----------------------------------------------

  /** A poll is asleep over the one queued submission, free to be leased, and no event is to come. */
  predicate SleptOver(h: Hub, poll: nat, id: nat)
  {
    Asleep(h, poll) && h.queued == {id} && h.unannounced == {} && h.locked == {}
  }

  lemma GoOn(hs: seq<Hub>, ms: seq<Move>, m: Move, next: Hub) returns (hs': seq<Hub>, ms': seq<Move>)
    requires IsPlay(hs, ms) && Possible(hs[|ms|], m) && Moved(hs[|ms|], m) == next
    ensures IsPlay(hs', ms') && hs' == hs + [next] && ms' == ms + [m]
  {
    hs', ms' := hs + [next], ms + [m];
  }

  /** A submission is sent, announced, and leased to a poll. */
  lemma FirstLease(id: nat, leasing: nat) returns (hs: seq<Hub>, ms: seq<Move>)
    ensures IsPlay(hs, ms) && hs[|ms|] == QUIET.(building := {id})
  {
    var sent := QUIET.(queued := {id});
    hs, ms := GoOn([QUIET], [], Commit({id}), sent.(unannounced := {id}));
    hs, ms := GoOn(hs, ms, Announce({id}), sent);
    hs, ms := GoOn(hs, ms, Subscribe(leasing), sent.(channels := map[leasing := []]));
    hs, ms := GoOn(hs, ms, TryFinds(leasing, id), QUIET.(building := {id}));
  }

  /** The build fails after another poll has gone to sleep. */
  lemma ResetIsSilent(id: nat, leasing: nat, sleeping: nat) returns (hs: seq<Hub>, ms: seq<Move>)
    ensures IsPlay(hs, ms) && ms != [] && ms[|ms| - 1] == Reset(id) && SleptOver(hs[|ms|], sleeping, id)
  {
    var waiting := QUIET.(building := {id}, channels := map[sleeping := []]);
    hs, ms := FirstLease(id, leasing);
    hs, ms := GoOn(hs, ms, Subscribe(sleeping), waiting);
    hs, ms := GoOn(hs, ms, TryFindsNone(sleeping), waiting.(parked := {sleeping}));
    hs, ms := GoOn(hs, ms, Reset(id), waiting.(building := {}, queued := {id}, parked := {sleeping}));
  }

  /** It is handed out, and another poll goes to sleep. */
  lemma AnotherSleeps(id: nat, leasing: nat, sleeping: nat) returns (hs: seq<Hub>, ms: seq<Move>)
    ensures IsPlay(hs, ms)
    ensures hs[|ms|] == QUIET.(judging := {id}, channels := map[sleeping := []], parked := {sleeping})
  {
    hs, ms := FirstLease(id, leasing);
    hs, ms := GoOn(hs, ms, HandOut(id), QUIET.(judging := {id}));
    var h := QUIET.(judging := {id}, channels := map[sleeping := []]);
    hs, ms := GoOn(hs, ms, Subscribe(sleeping), h);
    hs, ms := GoOn(hs, ms, TryFindsNone(sleeping), h.(parked := {sleeping}));
  }

  /** It is rejudged, and the event wakes the poll. */
  lemma RejudgeWakes(id: nat, leasing: nat, sleeping: nat) returns (hs: seq<Hub>, ms: seq<Move>)
    ensures IsPlay(hs, ms) && hs[|ms|] == QUIET.(queued := {id}, channels := map[sleeping := []])
  {
    hs, ms := AnotherSleeps(id, leasing, sleeping);
    var h := QUIET.(queued := {id}, channels := map[sleeping := []], parked := {sleeping});
    hs, ms := GoOn(hs, ms, Commit({id}), h.(unannounced := {id}));
    var event := Event("submission");
    assert Deliver([], event) == [event];
    assert DeliverAll(h.channels, event) == map[sleeping := [event]];
    hs, ms := GoOn(hs, ms, Announce({id}), h.(channels := map[sleeping := [event]]));
    hs, ms := GoOn(hs, ms, Wake(sleeping), h.(parked := {}));
  }

  /** Just then the old judger's heartbeat, for the attempt it still holds, has the row locked: the woken poll finds
      nothing and goes back to sleep. */
  lemma StaleHeartbeatIsSilent(id: nat, leasing: nat, sleeping: nat) returns (hs: seq<Hub>, ms: seq<Move>)
    ensures IsPlay(hs, ms) && ms != [] && ms[|ms| - 1] == Unlock(id) && SleptOver(hs[|ms|], sleeping, id)
  {
    hs, ms := RejudgeWakes(id, leasing, sleeping);
    var h := QUIET.(queued := {id}, channels := map[sleeping := []]);
    hs, ms := GoOn(hs, ms, Lock(id), h.(locked := {id}));
    hs, ms := GoOn(hs, ms, TryFindsNone(sleeping), h.(locked := {id}, parked := {sleeping}));
    hs, ms := GoOn(hs, ms, Unlock(id), h.(parked := {sleeping}));
  }
}
