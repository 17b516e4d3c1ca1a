/**
  The invite wake-up protocol (src/sync.rs). Tasks wait for invites on notify
  objects kept in a shared map; a loop polls the server and notifies them. The
  mutex makes two sections atomic, registering and processing a response;
  everything else interleaves freely.

  A `Notified` future receives `notify_waiters` from its creation on, before it
  is first polled. A first sync returns all invites so far, a later one those
  after `since`.
 */
module InviteSync {
  import opened Wrappers

  type RoomId = string
  type TaskId = nat
  type NotifyId = nat

  datatype InviteState = Pending(notify: NotifyId) | Invited

  type Invites = map<RoomId, InviteState>

  /** The result of registering: the map, the next unused notify, and the notify to wait on. */
  datatype Registration = Registration(invites: Invites, nextNotify: NotifyId, waitsOn: Option<NotifyId>)

  function Register(invites: Invites, nextNotify: NotifyId, room: RoomId): Registration {
    if room !in invites then Registration(invites[room := Pending(nextNotify)], nextNotify + 1, Some(nextNotify))
    else if invites[room].Pending? then Registration(invites, nextNotify, Some(invites[room].notify))
    else Registration(invites, nextNotify, None)
  }

  function Announce(invites: Invites, rooms: set<RoomId>): Invites {
    invites + map r | r in rooms :: Invited
  }

  function Notified(invites: Invites, rooms: set<RoomId>): set<NotifyId> {
    set r | r in rooms && r in invites && invites[r].Pending? :: invites[r].notify
  }

  /** The state behind the mutex, with its two critical sections. */
  class InviteTable {
    var invites: Invites
    var nextNotify: NotifyId

    constructor ()
      ensures invites == map[] && nextNotify == 0
    {
      invites, nextNotify := map[], 0;
    }

    /** The locked part of `wait_for_invite`: nothing to wait on when already invited. */
    method WaitForInvite(room: RoomId) returns (notified: Option<NotifyId>)
      modifies this
      ensures Registration(invites, nextNotify, notified) == Register(old(invites), old(nextNotify), room)
    {
      if room !in invites {
        invites := invites[room := Pending(nextNotify)];
        nextNotify := nextNotify + 1;
      }
      match invites[room] {
        case Pending(notify) => notified := Some(notify);
        case Invited => notified := None;
      }
    }

    /** The locked part of the sync loop: marks each room invited and notifies who waits for it. */
    method ProcessResponse(rooms: set<RoomId>) returns (notified: set<NotifyId>)
      modifies this
      ensures invites == Announce(old(invites), rooms) && nextNotify == old(nextNotify)
      ensures notified == Notified(old(invites), rooms)
    {
      hide Announce, Notified;
      AnnounceNone(invites);
      notified := {};
      var rest := rooms;
      assert rooms - rest == {};
      while rest != {}
        invariant rest <= rooms
        invariant invites == Announce(old(invites), rooms - rest) && nextNotify == old(nextNotify)
        invariant notified == Notified(old(invites), rooms - rest)
        decreases rest
      {
        var room :| room in rest;
        ghost var done := rooms - rest;
        rest := rest - {room};
        assert rooms - rest == done + {room} && (done + {room}) - {room} == done;
        AnnounceOne(old(invites), done + {room}, room);
        if room in invites {
          match invites[room] {
            case Invited =>
              assert invites[room := Invited] == invites;
            case Pending(notify) =>
              notified := notified + {notify};
              invites := invites[room := Invited];
          }
        } else {
          invites := invites[room := Invited];
        }
      }
      assert rooms - rest == rooms;
    }
  }

  lemma AnnounceNone(invites: Invites)
    ensures Announce(invites, {}) == invites && Notified(invites, {}) == {}
  {
  }

  lemma AnnounceOne(invites: Invites, rooms: set<RoomId>, room: RoomId)
    requires room in rooms
    ensures Announce(invites, rooms) == Announce(invites, rooms - {room})[room := Invited]
    ensures room in Announce(invites, rooms - {room}) <==> room in invites
    ensures room in invites ==> Announce(invites, rooms - {room})[room] == invites[room]
    ensures Notified(invites, rooms) == Notified(invites, rooms - {room}) +
              if room in invites && invites[room].Pending? then {invites[room].notify} else {}
  {
    var fewer := rooms - {room};
    forall n
      ensures n in Notified(invites, rooms) <==>
              n in Notified(invites, fewer) || (room in invites && invites[room] == Pending(n))
    {
      if n in Notified(invites, rooms) {
        var r :| r in rooms && r in invites && invites[r].Pending? && invites[r].notify == n;
        assert r == room || r in fewer;
      }
    }
  }

  // The interleaved system

  /** A task inside `wait_for_invite`. */
  datatype Waiter =
    | Calling(room: RoomId)
    | Sleeping(room: RoomId, notify: NotifyId, woken: bool)
    | Returned(room: RoomId)

  /** The loop: its request is out, or a response has come, or an error has ended it. */
  datatype Loop = Polling | Received(rooms: set<RoomId>, next: nat) | Stopped

  /** `log` is the server's log of invites. */
  datatype State = State(
    invites: Invites,
    nextNotify: NotifyId,
    waiters: map<TaskId, Waiter>,
    loop: Loop,
    since: Option<nat>,
    log: seq<RoomId>)
  {
    function Cursor(): nat {
      since.GetOr(0)
    }
  }

  const INITIAL := State(map[], 0, map[], Polling, None, [])

  datatype Event =
    | Call(task: TaskId, room: RoomId)
    | Enter(task: TaskId)
    | Resume(task: TaskId)
    | Cancel(task: TaskId)
    | ServerInvite(room: RoomId)
    | Respond
    | Process
    | Fail

  predicate Enabled(s: State, e: Event) {
    match e
    case Call(task, _) => task !in s.waiters
    case Enter(task) => task in s.waiters && s.waiters[task].Calling?
    case Resume(task) => task in s.waiters && s.waiters[task].Sleeping? && s.waiters[task].woken
    case Cancel(task) => task in s.waiters && !s.waiters[task].Returned?
    case ServerInvite(_) => true
    case Respond => s.loop.Polling? && s.Cursor() <= |s.log|
    case Process => s.loop.Received?
    case Fail => s.loop.Polling?
  }

  function Woken(waiter: Waiter, notified: set<NotifyId>): Waiter {
    if waiter.Sleeping? && waiter.notify in notified then waiter.(woken := true) else waiter
  }

  function After(s: State, e: Event): State
    requires Enabled(s, e)
  {
    match e
    case Call(task, room) => s.(waiters := s.waiters[task := Calling(room)])
    case Enter(task) =>
      var room := s.waiters[task].room;
      var registration := Register(s.invites, s.nextNotify, room);
      var waiter := if registration.waitsOn.Some? then Sleeping(room, registration.waitsOn.value, false) else Returned(room);
      s.(invites := registration.invites, nextNotify := registration.nextNotify, waiters := s.waiters[task := waiter])
    case Resume(task) => s.(waiters := s.waiters[task := Returned(s.waiters[task].room)])
    case Cancel(task) => s.(waiters := s.waiters - {task})
    case ServerInvite(room) => s.(log := s.log + [room])
    case Respond => s.(loop := Received(set r | r in s.log[s.Cursor()..], |s.log|))
    case Process =>
      var notified := Notified(s.invites, s.loop.rooms);
      s.(invites := Announce(s.invites, s.loop.rooms),
         waiters := map t | t in s.waiters :: Woken(s.waiters[t], notified),
         since := Some(s.loop.next),
         loop := Polling)
    case Fail => s.(loop := Stopped)
  }

  /** The state after `events`, if each of them was possible in its turn. */
  function Execute(s: State, events: seq<Event>): Option<State> {
    if events == [] then Some(s)
    else
      var before := Execute(s, events[..|events| - 1]);
      var e := events[|events| - 1];
      if before.Some? && Enabled(before.value, e) then Some(After(before.value, e)) else None
  }

  // The invariant

  /** Each pending entry has a notify of its own. */
  ghost predicate OwnNotifies(s: State) {
    && (forall r :: r in s.invites && s.invites[r].Pending? ==> s.invites[r].notify < s.nextNotify)
    && (forall q, r :: q in s.invites && r in s.invites && s.invites[q].Pending? && s.invites[q] == s.invites[r] ==> q == r)
  }

  /** A sleeping waiter is registered on the notify of its room until it is woken. */
  ghost predicate Registered(s: State, waiter: Waiter) {
    match waiter
    case Calling(_) => true
    case Sleeping(room, notify, woken) => room in s.invites && s.invites[room] == if woken then Invited else Pending(notify)
    case Returned(room) => room in s.invites && s.invites[room] == Invited
  }

  /** The invited rooms are those of the log up to the cursor. */
  ghost predicate Refines(s: State) {
    && s.Cursor() <= |s.log|
    && (forall r :: r in s.invites && s.invites[r] == Invited <==> r in s.log[..s.Cursor()])
    && (s.loop.Received? ==>
          && s.Cursor() <= s.loop.next <= |s.log|
          && s.loop.rooms == set r | r in s.log[s.Cursor()..s.loop.next])
  }

  ghost predicate Inv(s: State) {
    OwnNotifies(s) && (forall t :: t in s.waiters ==> Registered(s, s.waiters[t])) && Refines(s)
  }

  lemma EnterKeepsInv(s: State, task: TaskId)
    requires Inv(s) && Enabled(s, Enter(task))
    ensures Inv(After(s, Enter(task)))
  {
    var n := After(s, Enter(task));
    forall t | t in n.waiters
      ensures Registered(n, n.waiters[t])
    {
      if t != task {
        assert Registered(s, s.waiters[t]);
      }
    }
  }

  lemma ProcessKeepsInv(s: State)
    requires Inv(s) && s.loop.Received?
    ensures Inv(After(s, Process))
  {
    var n := After(s, Process);
    var rooms, notified := s.loop.rooms, Notified(s.invites, s.loop.rooms);
    forall t | t in n.waiters
      ensures Registered(n, n.waiters[t])
    {
      ProcessedWaiter(s, t);
    }
    forall r
      ensures r in n.invites && n.invites[r] == Invited <==> r in n.log[..n.Cursor()]
    {
      assert s.log[..s.loop.next] == s.log[..s.Cursor()] + s.log[s.Cursor()..s.loop.next];
    }
  }

  /** Processing wakes exactly the sleepers whose rooms are in the response. */
  lemma ProcessedWaiter(s: State, t: TaskId)
    requires Inv(s) && s.loop.Received? && t in s.waiters
    ensures Registered(After(s, Process), After(s, Process).waiters[t])
    ensures s.waiters[t].Sleeping? ==>
              After(s, Process).waiters[t] == s.waiters[t].(woken := s.waiters[t].woken || s.waiters[t].room in s.loop.rooms)
  {
    var waiter, notified := s.waiters[t], Notified(s.invites, s.loop.rooms);
    assert Registered(s, waiter);
    if waiter.Sleeping? && !waiter.woken {
      if waiter.notify in notified {
        var r :| r in s.loop.rooms && r in s.invites && s.invites[r].Pending? && s.invites[r].notify == waiter.notify;
        assert r == waiter.room;
      }
    }
  }

  lemma RespondKeepsInv(s: State)
    requires Inv(s) && Enabled(s, Respond)
    ensures Inv(After(s, Respond))
  {
    assert s.log[s.Cursor()..|s.log|] == s.log[s.Cursor()..];
    forall t | t in s.waiters
      ensures Registered(After(s, Respond), s.waiters[t])
    {
      assert Registered(s, s.waiters[t]);
    }
  }

  lemma StepKeepsInv(s: State, e: Event)
    requires Inv(s) && Enabled(s, e)
    ensures Inv(After(s, e))
  {
    match e
    case Enter(task) => EnterKeepsInv(s, task);
    case Process => ProcessKeepsInv(s);
    case Respond => RespondKeepsInv(s);
    case ServerInvite(room) =>
      var n := After(s, e);
      assert n.log[..s.Cursor()] == s.log[..s.Cursor()];
      assert s.loop.Received? ==> n.log[s.Cursor()..s.loop.next] == s.log[s.Cursor()..s.loop.next];
      assert forall t :: t in s.waiters ==> Registered(s, s.waiters[t]);
    case _ =>
      assert forall t :: t in s.waiters ==> Registered(s, s.waiters[t]);
  }

  lemma {:induction false} InvAlways(s: State, events: seq<Event>)
    requires Inv(s)
    ensures Execute(s, events).Some? ==> Inv(Execute(s, events).value)
  {
    if events != [] {
      var n := |events| - 1;
      InvAlways(s, events[..n]);
      var before := Execute(s, events[..n]);
      if before.Some? && Enabled(before.value, events[n]) {
        StepKeepsInv(before.value, events[n]);
      }
    }
  }

  // What the protocol guarantees

  ghost predicate Reachable(s: State) {
    exists events :: Execute(INITIAL, events) == Some(s)
  }

  lemma ReachableInv(s: State)
    requires Reachable(s)
    ensures Inv(s)
  {
    var events :| Execute(INITIAL, events) == Some(s);
    InvAlways(INITIAL, events);
  }

  /**
    The invited rooms are at every moment the invites of the server's log up to
    the cursor: none before the loop started or between two polls is missed,
    and none is invented.
   */
  lemma InvitedIsLogUpToCursor(s: State)
    requires Reachable(s)
    ensures s.Cursor() <= |s.log|
    ensures (set r | r in s.invites && s.invites[r].Invited?) == set r | r in s.log[..s.Cursor()]
  {
    ReachableInv(s);
  }

  /**
    No wake-up is lost or spurious: a sleeping waiter has been notified exactly
    when the invite to its room is in the processed log, and is otherwise
    registered on the notify of its room's pending entry. A wait has returned
    only for a room that was invited.
   */
  lemma NoLostWakeUp(s: State, t: TaskId)
    requires Reachable(s) && t in s.waiters
    ensures s.Cursor() <= |s.log|
    ensures var waiter := s.waiters[t];
            && (waiter.Sleeping? ==>
                  && (waiter.woken <==> waiter.room in s.log[..s.Cursor()])
                  && (!waiter.woken ==> waiter.room in s.invites && s.invites[waiter.room] == Pending(waiter.notify)))
            && (waiter.Returned? ==> waiter.room in s.log[..s.Cursor()])
  {
    ReachableInv(s);
    assert Registered(s, s.waiters[t]);
  }

  /** A step moves no task but its own; processing a response may wake others, and does nothing else to them. */
  lemma OthersStay(s: State, e: Event, t: TaskId)
    requires Enabled(s, e) && t in s.waiters
    requires !(e.Enter? || e.Resume? || e.Cancel?) || e.task != t
    ensures t in After(s, e).waiters
    ensures After(s, e).waiters[t] == s.waiters[t] || (e.Process? && s.waiters[t].Sleeping? && After(s, e).waiters[t] == s.waiters[t].(woken := true))
  {
  }

  /** The log is the server's, the cursor moves with each response that is processed, and cancelling a wait ends just that. */
  lemma StepsElsewhere(s: State, e: Event)
    requires Enabled(s, e)
    ensures After(s, e).log == if e.ServerInvite? then s.log + [e.room] else s.log
    ensures e.Process? ==> After(s, e).since == Some(s.loop.next)
    ensures !e.Process? ==> After(s, e).since == s.since
    ensures !e.Process? && !e.Enter? ==> After(s, e).invites == s.invites
    ensures e.Cancel? ==> e.task !in After(s, e).waiters && After(s, e).waiters.Keys == s.waiters.Keys - {e.task}
  {
  }

  /** The loop polls, takes in a response, and polls again, until an error. */
  lemma LoopTurns(s: State)
    requires Reachable(s)
    ensures s.loop.Polling? <==> Enabled(s, Respond)
    ensures s.loop.Polling? <==> Enabled(s, Fail)
    ensures s.loop.Received? <==> Enabled(s, Process)
    ensures s.loop.Polling? ==> After(s, Fail).loop == Stopped
    ensures s.loop.Polling? ==> After(s, Respond).loop == Received(set r | r in s.log[s.Cursor()..], |s.log|)
    ensures s.loop.Received? ==> After(s, Process).loop == Polling
  {
    ReachableInv(s);
    InvBoundsCursor(s);
  }

  /**
    A call of `wait_for_invite`, undisturbed: it returns at once for a room whose
    invite has been processed, and otherwise sleeps on the notify of the room's
    entry, which it shares with who waits there already.
   */
  lemma CallExactly(s: State, t: TaskId, room: RoomId)
    requires Reachable(s) && t !in s.waiters
    ensures s.Cursor() <= |s.log| && Execute(s, [Call(t, room), Enter(t)]).Some?
    ensures var n := Execute(s, [Call(t, room), Enter(t)]).value;
            && n.waiters.Keys == s.waiters.Keys + {t} && n.loop == s.loop && n.since == s.since && n.log == s.log
            && (room in s.log[..s.Cursor()] ==> n.waiters[t] == Returned(room) && n.invites == s.invites)
            && (room !in s.log[..s.Cursor()] ==>
                  && room in n.invites && n.invites[room].Pending?
                  && n.waiters[t] == Sleeping(room, n.invites[room].notify, false)
                  && n.invites == s.invites[room := n.invites[room]]
                  && (room in s.invites ==> n.invites == s.invites))
  {
    ReachableInv(s);
    InvBoundsCursor(s);
    assert [Call(t, room), Enter(t)][..1] == [Call(t, room)];
    ExecuteOne(s, Call(t, room));
  }

  /** A wait entered after the invite has been processed returns at once. */
  lemma LateWaiterReturnsAtOnce(s: State, task: TaskId)
    requires Reachable(s) && Enabled(s, Enter(task))
    ensures s.Cursor() <= |s.log|
    ensures After(s, Enter(task)).waiters[task].Returned? <==> s.waiters[task].room in s.log[..s.Cursor()]
  {
    ReachableInv(s);
  }

  /** Invited rooms stay invited, and the cursor never moves back, whatever happens next. */
  lemma {:induction false} InvitedIsAbsorbing(s: State, events: seq<Event>)
    requires Inv(s) && Execute(s, events).Some?
    ensures var n := Execute(s, events).value;
            s.Cursor() <= n.Cursor() && s.log <= n.log && StaysInvited(s, n)
  {
    if events != [] {
      var k := |events| - 1;
      InvitedIsAbsorbing(s, events[..k]);
      InvAlways(s, events[..k]);
      StepKeepsInvited(Execute(s, events[..k]).value, events[k]);
    }
  }

  ghost predicate StaysInvited(s: State, n: State) {
    forall r :: r in s.invites && s.invites[r] == Invited ==> r in n.invites && n.invites[r] == Invited
  }

  lemma StepKeepsInvited(s: State, e: Event)
    requires Inv(s) && Enabled(s, e)
    ensures var n := After(s, e);
            s.Cursor() <= n.Cursor() && s.log <= n.log && StaysInvited(s, n)
  {
  }

  /** One poll wakes every waiter whose invite had been logged when it was answered. */
  lemma PollWakesAll(s: State, t: TaskId)
    requires Reachable(s) && s.loop.Polling? && t in s.waiters && s.waiters[t].Sleeping?
    ensures Enabled(s, Respond) && Enabled(After(s, Respond), Process)
    ensures var n := After(After(s, Respond), Process);
            n.waiters[t].Sleeping? && (n.waiters[t].woken <==> s.waiters[t].room in s.log)
  {
    ReachableInv(s);
    RespondKeepsInv(s);
    InvBoundsCursor(s);
    WokenIfLogged(s, t);
    ProcessedWaiter(After(s, Respond), t);
    hide Inv, Registered, Announce, Notified;
    assert s.log == s.log[..s.Cursor()] + s.log[s.Cursor()..];
  }

  lemma WokenIfLogged(s: State, t: TaskId)
    requires Inv(s) && t in s.waiters && s.waiters[t].Sleeping?
    ensures s.Cursor() <= |s.log| && (s.waiters[t].woken <==> s.waiters[t].room in s.log[..s.Cursor()])
  {
    assert Registered(s, s.waiters[t]);
  }

  /** Once the loop has stopped, nobody is woken any more. */
  lemma {:induction false} StoppedLoopWakesNobody(s: State, events: seq<Event>, t: TaskId)
    requires s.loop.Stopped? && Execute(s, events).Some?
    requires t in s.waiters && s.waiters[t].Sleeping? && !s.waiters[t].woken
    requires Cancel(t) !in events
    ensures var n := Execute(s, events).value;
            n.loop.Stopped? && n.since == s.since && t in n.waiters && n.waiters[t] == s.waiters[t]
  {
    if events != [] {
      var k := |events| - 1;
      StoppedLoopWakesNobody(s, events[..k], t);
      assert events[k] in events;
    }
  }

  /**
    An error of the loop is final: whatever happens next, a sleeper that had not
    been notified stays asleep, and no invite that comes is taken up.
   */
  lemma ErrorWakesNobody(s: State, events: seq<Event>, t: TaskId)
    requires Enabled(s, Fail) && Execute(After(s, Fail), events).Some?
    requires t in s.waiters && s.waiters[t].Sleeping? && !s.waiters[t].woken
    requires Cancel(t) !in events
    ensures var n := Execute(After(s, Fail), events).value;
            && n.since == s.since && t in n.waiters && n.waiters[t] == s.waiters[t]
            && !Enabled(n, Respond) && !Enabled(n, Process)
  {
    StoppedLoopWakesNobody(After(s, Fail), events, t);
  }

  lemma ErrorEndsHope(s: State, t: TaskId)
    requires Enabled(s, Fail) && t in s.waiters && s.waiters[t].Sleeping? && !s.waiters[t].woken
    ensures !CanReturn(After(s, Fail), t)
  {
    hide Execute, Enabled;
    var n := After(s, Fail);
    forall events | Cancel(t) !in events
      ensures !ReturnsBy(n, events, t)
    {
      if Execute(n, events).Some? {
        ErrorWakesNobody(s, events, t);
      }
    }
  }

  lemma {:induction false} ExecuteConcat(s: State, a: seq<Event>, b: seq<Event>)
    ensures Execute(s, a + b) == if Execute(s, a).Some? then Execute(Execute(s, a).value, b) else None
  {
    if b == [] {
      assert a + b == a;
    } else {
      ExecuteConcat(s, a, b[..|b| - 1]);
      assert (a + b)[..|a + b| - 1] == a + b[..|b| - 1];
    }
  }

  lemma ExecuteOne(s: State, e: Event)
    requires Enabled(s, e)
    ensures Execute(s, [e]) == Some(After(s, e))
  {
    assert [e][..0] == [];
  }

  /** Some continuation in which nobody cancels the wait ends it. */
  ghost predicate CanReturn(s: State, t: TaskId) {
    exists events :: Cancel(t) !in events && ReturnsBy(s, events, t)
  }

  predicate ReturnsBy(s: State, events: seq<Event>, t: TaskId) {
    var n := Execute(s, events);
    n.Some? && t in n.value.waiters && n.value.waiters[t].Returned?
  }

  /**
    Liveness, exactly: a sleeping waiter can still return if and only if it has
    been notified already or the loop is still running.
   */
  lemma WaiterCanReturnIffLoopRuns(s: State, t: TaskId)
    requires Reachable(s) && t in s.waiters && s.waiters[t].Sleeping?
    ensures CanReturn(s, t) <==> s.waiters[t].woken || !s.loop.Stopped?
  {
    ReachableInv(s);
    hide Inv, Execute;
    if s.waiters[t].woken {
      ExecuteOne(s, Resume(t));
      assert ReturnsBy(s, [Resume(t)], t);
    } else if s.loop.Stopped? {
      forall events | Cancel(t) !in events
        ensures !ReturnsBy(s, events, t)
      {
        if Execute(s, events).Some? {
          StoppedLoopWakesNobody(s, events, t);
        }
      }
    } else if s.loop.Polling? {
      RunningLoopReturns(s, t);
    } else {
      ReceivedLoopReturns(s, t);
    }
  }

  /** A response that is being processed comes before the next poll. */
  lemma ReceivedLoopReturns(s: State, t: TaskId)
    requires Inv(s) && s.loop.Received? && t in s.waiters && s.waiters[t].Sleeping?
    ensures CanReturn(s, t)
  {
    ProcessKeepsInv(s);
    ProcessedWaiter(s, t);
    hide Inv, Registered;
    var n := After(s, Process);
    assert n.loop.Polling?;
    hide After;
    RunningLoopReturns(n, t);
    var rest := [ServerInvite(n.waiters[t].room), Respond, Process, Resume(t)];
    ReturnsLater(s, Process, rest, t);
  }

  lemma ReturnsLater(s: State, e: Event, rest: seq<Event>, t: TaskId)
    requires Enabled(s, e) && e != Cancel(t) && Cancel(t) !in rest && ReturnsBy(After(s, e), rest, t)
    ensures CanReturn(s, t)
  {
    hide Enabled, After, Execute;
    ExecuteOne(s, e);
    ExecuteConcat(s, [e], rest);
    assert Cancel(t) !in [e] + rest && ReturnsBy(s, [e] + rest, t);
  }

  lemma RunningLoopReturns(s: State, t: TaskId)
    requires Inv(s) && s.loop.Polling? && t in s.waiters && s.waiters[t].Sleeping?
    ensures var events := [ServerInvite(s.waiters[t].room), Respond, Process, Resume(t)];
            Cancel(t) !in events && ReturnsBy(s, events, t)
  {
    hide Inv, Register, Announce, Notified;
    var room := s.waiters[t].room;
    var s1 := After(s, ServerInvite(room));
    StepKeepsInv(s, ServerInvite(room));
    InvBoundsCursor(s);
    InvBoundsCursor(s1);
    var s2 := After(s1, Respond);
    StepKeepsInv(s1, Respond);
    LastIsUnprocessed(s1, room);
    ProcessedWaiter(s2, t);
    var s3 := After(s2, Process);
    ExecuteFour(s, ServerInvite(room), Respond, Process, Resume(t), s1, s2, s3);
  }

  lemma InvBoundsCursor(s: State)
    requires Inv(s)
    ensures s.Cursor() <= |s.log|
  {
  }

  lemma LastIsUnprocessed(s: State, room: RoomId)
    requires s.Cursor() < |s.log| && s.log[|s.log| - 1] == room
    ensures room in s.log[s.Cursor()..]
  {
    assert s.log[s.Cursor()..][|s.log| - 1 - s.Cursor()] == room;
  }

  lemma ExecuteFour(s: State, a: Event, b: Event, c: Event, d: Event, s1: State, s2: State, s3: State)
    requires Enabled(s, a) && s1 == After(s, a)
    requires Enabled(s1, b) && s2 == After(s1, b)
    requires Enabled(s2, c) && s3 == After(s2, c)
    requires Enabled(s3, d)
    ensures Execute(s, [a, b, c, d]) == Some(After(s3, d))
  {
    hide After, Enabled;
    ExecuteOne(s, a);
    assert [a, b][..1] == [a] && [a, b, c][..2] == [a, b] && [a, b, c, d][..3] == [a, b, c];
    assert Execute(s, [a, b]) == Some(s2);
    assert Execute(s, [a, b, c]) == Some(s3);
  }
}
