/**
  All tasks that share a rate-limited client (src/rate_limit.rs), interleaved
  over a clock: the creation of one limiter per endpoint, its lock, and the
  spacing of completed calls. A task may be cancelled at any moment.
 */
module RateLimitTasks {
  import opened Wrappers
  import opened RateLimit

  type LimiterId = nat
  type TaskId = nat

  datatype Limiter = Limiter(nextRequest: Option<Time>, holder: Option<TaskId>)

  /** Where a task is in `send_request`. */
  datatype Phase =
    | Looking
    | Allocated(limiter: LimiterId)
    | Acquiring(limiter: LimiterId)
    | Holding(limiter: LimiterId)
    | InFlight(limiter: LimiterId)
  {
    predicate Holds(l: LimiterId) {
      (Holding? || InFlight?) && limiter == l
    }
  }

  datatype Task = Task(endpoint: Endpoint, phase: Phase)

  /** `states` is the shared map; `completions` records when the calls of each endpoint completed. */
  datatype State = State(
    clock: Time,
    states: map<Endpoint, LimiterId>,
    limiters: map<LimiterId, Limiter>,
    nextLimiter: LimiterId,
    tasks: map<TaskId, Task>,
    completions: map<Endpoint, seq<Time>>)
  {
    function CompletionsOf(e: Endpoint): seq<Time> {
      if e in completions then completions[e] else []
    }
  }

  const INITIAL := State(0.0, map[], map[], 0, map[], map[])

  datatype Event =
    | Start(task: TaskId, endpoint: Endpoint)
    | ReadCheck(task: TaskId)
    | Insert(task: TaskId)
    | Lock(task: TaskId)
    | Send(task: TaskId)
    | ReceiveLimited(task: TaskId, wall: Time, hint: Option<RetryAfter>)
    | Complete(task: TaskId)
    | Cancel(task: TaskId)
    | Tick(elapsed: Duration)

  predicate Enabled(s: State, e: Event) {
    if e.Start? then e.task !in s.tasks
    else if e.Tick? then true
    else e.task in s.tasks && EnabledIn(s, e, s.tasks[e.task].phase)
  }

  predicate EnabledIn(s: State, e: Event, phase: Phase) {
    match e
    case ReadCheck(_) => phase.Looking?
    case Insert(_) => phase.Allocated?
    case Lock(_) => phase.Acquiring? && phase.limiter in s.limiters && s.limiters[phase.limiter].holder.None?
    case Send(_) =>
      && phase.Holding? && phase.limiter in s.limiters
      && (s.limiters[phase.limiter].nextRequest.Some? ==> s.limiters[phase.limiter].nextRequest.value <= s.clock)
    case ReceiveLimited(_, _, _) => phase.InFlight? && phase.limiter in s.limiters
    case Complete(_) => phase.InFlight? && phase.limiter in s.limiters
    case _ => true
  }

  function Move(s: State, t: TaskId, phase: Phase): State
    requires t in s.tasks
  {
    s.(tasks := s.tasks[t := s.tasks[t].(phase := phase)])
  }

  function Release(s: State, t: TaskId): State
    requires t in s.tasks
  {
    var phase := s.tasks[t].phase;
    var limiters := if (phase.Holding? || phase.InFlight?) && phase.limiter in s.limiters
                    then s.limiters[phase.limiter := s.limiters[phase.limiter].(holder := None)] else s.limiters;
    s.(tasks := s.tasks - {t}, limiters := limiters)
  }

  function SetNext(s: State, l: LimiterId, next: Time): State
    requires l in s.limiters
  {
    s.(limiters := s.limiters[l := s.limiters[l].(nextRequest := Some(next))])
  }

  function After(s: State, e: Event): State
    requires Enabled(s, e)
  {
    match e
    case Start(t, endpoint) => s.(tasks := s.tasks[t := Task(endpoint, Looking)])
    case ReadCheck(t) =>
      var endpoint := s.tasks[t].endpoint;
      var found := Found(s.states, endpoint);
      if found.Some? then Move(s, t, Acquiring(found.value))
      else Move(s.(limiters := s.limiters[s.nextLimiter := Limiter(None, None)], nextLimiter := s.nextLimiter + 1),
                t, Allocated(s.nextLimiter))
    case Insert(t) =>
      var endpoint := s.tasks[t].endpoint;
      var states := OrInsert(s.states, endpoint, s.tasks[t].phase.limiter);
      Move(s.(states := states), t, Acquiring(states[endpoint]))
    case Lock(t) =>
      var l := s.tasks[t].phase.limiter;
      Move(s.(limiters := s.limiters[l := s.limiters[l].(holder := Some(t))]), t, Holding(l))
    case Send(t) => Move(s, t, InFlight(s.tasks[t].phase.limiter))
    case ReceiveLimited(t, wall, hint) =>
      var l := s.tasks[t].phase.limiter;
      Move(SetNext(s, l, NextAfterLimit(s.clock, wall, hint)), t, Holding(l))
    case Complete(t) =>
      var endpoint := s.tasks[t].endpoint;
      var done := SetNext(s, s.tasks[t].phase.limiter, s.clock + DEFAULT_REQUEST_PERIOD);
      Release(done.(completions := s.completions[endpoint := s.CompletionsOf(endpoint) + [s.clock]]), t)
    case Cancel(t) => Release(s, t)
    case Tick(elapsed) => s.(clock := s.clock + elapsed)
  }

  function Execute(s: State, events: seq<Event>): Option<State> {
    if events == [] then Some(s)
    else
      var before := Execute(s, events[..|events| - 1]);
      var e := events[|events| - 1];
      if before.Some? && Enabled(before.value, e) then Some(After(before.value, e)) else None
  }

  ghost predicate Reachable(s: State) {
    exists events :: Execute(INITIAL, events) == Some(s)
  }

  // The invariant

  /** Every limiter in the map is of one endpoint. */
  ghost predicate OwnLimiters(s: State) {
    && (forall l :: l in s.limiters ==> l < s.nextLimiter)
    && (forall e :: e in s.states ==> s.states[e] in s.limiters)
    && (forall e, f :: e in s.states && f in s.states && s.states[e] == s.states[f] ==> e == f)
  }

  /** A task has a limiter of its own until it inserts, and the endpoint's one from then on. */
  ghost predicate HasLimiter(s: State, task: Task) {
    match task.phase
    case Looking => true
    case Allocated(l) => l in s.limiters && s.limiters[l].holder.None? && forall e :: e in s.states ==> s.states[e] != l
    case Acquiring(l) => task.endpoint in s.states && s.states[task.endpoint] == l
    case Holding(l) => task.endpoint in s.states && s.states[task.endpoint] == l
    case InFlight(l) => task.endpoint in s.states && s.states[task.endpoint] == l
  }

  ghost predicate TasksHaveLimiters(s: State) {
    && (forall t :: t in s.tasks ==> HasLimiter(s, s.tasks[t]))
    && AllocatedApart(s)
  }

  /** A limiter that is not in the map yet was allocated by one task. */
  ghost predicate AllocatedApart(s: State) {
    forall t, u :: t in s.tasks && u in s.tasks && s.tasks[t].phase.Allocated? && s.tasks[t].phase == s.tasks[u].phase ==> t == u
  }

  /** The holder of a limiter is the task that is past its lock. */
  ghost predicate HoldersHold(s: State) {
    forall l, t :: l in s.limiters ==>
      (s.limiters[l].holder == Some(t) <==> t in s.tasks && s.tasks[t].phase.Holds(l))
  }

  ghost predicate Spaced(times: seq<Time>) {
    forall i :: 0 < i < |times| ==> times[i] >= times[i - 1] + DEFAULT_REQUEST_PERIOD
  }

  /** Until `until`, no request of the endpoint is sent or in flight. */
  ghost predicate Quiet(s: State, e: Endpoint, until: Time) {
    || until <= s.clock
    || (e in s.states && s.states[e] in s.limiters
        && s.limiters[s.states[e]].nextRequest == Some(until)
        && forall t :: t in s.tasks && s.tasks[t].endpoint == e ==> !s.tasks[t].phase.InFlight?)
  }

  /** A period of rest after the last completion. */
  ghost predicate RestsAfter(s: State, e: Endpoint, last: Time) {
    last <= s.clock && Quiet(s, e, last + DEFAULT_REQUEST_PERIOD)
  }

  ghost predicate EndpointSpaced(s: State, e: Endpoint)
    requires e in s.completions
  {
    var times := s.completions[e];
    Spaced(times) && (times != [] ==> RestsAfter(s, e, times[|times| - 1]))
  }

  ghost predicate CompletionsSpaced(s: State) {
    forall e :: e in s.completions ==> EndpointSpaced(s, e)
  }

  ghost predicate Inv(s: State) {
    OwnLimiters(s) && TasksHaveLimiters(s) && HoldersHold(s) && CompletionsSpaced(s)
  }

  lemma StepKeepsLimiters(s: State, e: Event)
    requires Inv(s) && Enabled(s, e)
    ensures OwnLimiters(After(s, e))
    ensures s.states.Keys <= After(s, e).states.Keys && forall f :: f in s.states ==> After(s, e).states[f] == s.states[f]
  {
    if e.Insert? {
      assert HasLimiter(s, s.tasks[e.task]);
    }
  }

  lemma StepKeepsTasks(s: State, e: Event)
    requires Inv(s) && Enabled(s, e)
    ensures TasksHaveLimiters(After(s, e))
  {
    StepKeepsLimiters(s, e);
    StepKeepsAllocated(s, e);
    hide After, Enabled, HasLimiter, Inv;
    forall t | t in After(s, e).tasks
      ensures HasLimiter(After(s, e), After(s, e).tasks[t])
    {
      StepKeepsTask(s, e, t);
    }
  }

  lemma StepKeepsTask(s: State, e: Event, t: TaskId)
    requires Inv(s) && Enabled(s, e) && t in After(s, e).tasks
    ensures HasLimiter(After(s, e), After(s, e).tasks[t])
  {
    assert OwnLimiters(s) && TasksHaveLimiters(s);
    hide Inv, CompletionsSpaced, HoldersHold;
    if t in s.tasks {
      assert HasLimiter(s, s.tasks[t]);
      if !e.Tick? && !e.Start? && e.task != t {
        OtherTaskKeepsLimiter(s, e, t);
      }
    }
  }

  lemma OtherTaskKeepsLimiter(s: State, e: Event, t: TaskId)
    requires OwnLimiters(s) && TasksHaveLimiters(s) && Enabled(s, e)
    requires !e.Tick? && !e.Start? && e.task != t && t in s.tasks
    ensures t in After(s, e).tasks && HasLimiter(After(s, e), After(s, e).tasks[t])
  {
    assert HasLimiter(s, s.tasks[t]) && HasLimiter(s, s.tasks[e.task]);
    hide TasksHaveLimiters;
  }

  lemma StepKeepsAllocated(s: State, e: Event)
    requires Inv(s) && Enabled(s, e)
    ensures AllocatedApart(After(s, e))
  {
    forall t | t in s.tasks && s.tasks[t].phase.Allocated?
      ensures s.tasks[t].phase.limiter < s.nextLimiter
    {
      assert HasLimiter(s, s.tasks[t]);
    }
    hide CompletionsSpaced, HoldersHold, HasLimiter;
  }

  lemma StepKeepsHolders(s: State, e: Event)
    requires Inv(s) && Enabled(s, e)
    ensures HoldersHold(After(s, e))
  {
    hide CompletionsSpaced, AllocatedApart;
    if !e.Tick? && e.task in s.tasks {
      assert HasLimiter(s, s.tasks[e.task]);
    }
  }

  lemma StepKeepsSpacing(s: State, e: Event)
    requires Inv(s) && Enabled(s, e)
    ensures CompletionsSpaced(After(s, e))
  {
    hide OwnLimiters, TasksHaveLimiters, HoldersHold, RestsAfter, Spaced;
    forall f | f in After(s, e).completions
      ensures EndpointSpaced(After(s, e), f)
    {
      StepKeepsEndpointSpacing(s, e, f);
    }
  }

  lemma CompletionsAfter(s: State, e: Event)
    requires Enabled(s, e)
    ensures After(s, e).completions ==
            if e.Complete?
            then s.completions[s.tasks[e.task].endpoint := s.CompletionsOf(s.tasks[e.task].endpoint) + [s.clock]]
            else s.completions
  {
  }

  lemma SpacedAppend(times: seq<Time>, next: Time)
    requires Spaced(times) && (times != [] ==> times[|times| - 1] + DEFAULT_REQUEST_PERIOD <= next)
    ensures Spaced(times + [next])
  {
  }

  lemma StepKeepsEndpointSpacing(s: State, e: Event, f: Endpoint)
    requires Inv(s) && Enabled(s, e) && f in After(s, e).completions
    ensures EndpointSpaced(After(s, e), f)
  {
    CompletionsAfter(s, e);
    hide After, Inv, RestsAfter, Spaced, Enabled;
    var times := s.CompletionsOf(f);
    SpacedSoFar(s, f);
    if times != [] {
      StepRests(s, e, f, times[|times| - 1]);
    }
    if e.Complete? && s.tasks[e.task].endpoint == f {
      SpacedAppend(times, s.clock);
      CompletionRests(s, e.task);
    }
  }

  lemma SpacedSoFar(s: State, f: Endpoint)
    requires Inv(s)
    ensures var times := s.CompletionsOf(f);
            Spaced(times) && (times != [] ==> RestsAfter(s, f, times[|times| - 1]))
  {
    assert f in s.completions ==> EndpointSpaced(s, f);
  }

  /** A step ends the quiet of an endpoint only by letting the time pass. */
  lemma StepKeepsQuiet(s: State, e: Event, f: Endpoint, until: Time)
    requires Inv(s) && Enabled(s, e) && Quiet(s, f, until)
    ensures Quiet(After(s, e), f, until)
    ensures e.Send? && s.tasks[e.task].endpoint == f ==> until <= s.clock
    ensures e.Complete? && s.tasks[e.task].endpoint == f ==> until <= s.clock
  {
    hide CompletionsSpaced;
    if !e.Tick? && e.task in s.tasks {
      assert HasLimiter(s, s.tasks[e.task]);
    }
  }

  lemma ClockNeverBack(s: State, e: Event)
    requires Enabled(s, e)
    ensures s.clock <= After(s, e).clock
  {
  }

  /** Unless it completes a call of the endpoint, a step keeps the rest after its last completion. */
  lemma StepRests(s: State, e: Event, f: Endpoint, last: Time)
    requires Inv(s) && Enabled(s, e) && RestsAfter(s, f, last)
    ensures e.Complete? && s.tasks[e.task].endpoint == f ==> last + DEFAULT_REQUEST_PERIOD <= s.clock
    ensures !(e.Complete? && s.tasks[e.task].endpoint == f) ==> RestsAfter(After(s, e), f, last)
  {
    hide Inv, Quiet, After;
    StepKeepsQuiet(s, e, f, last + DEFAULT_REQUEST_PERIOD);
    ClockNeverBack(s, e);
  }

  /** With a limiter of the endpoint set to `until`, by the only task that sends, the endpoint is quiet. */
  lemma EndedFlightIsQuiet(s: State, t: TaskId, n: State, until: Time)
    requires Inv(s) && t in s.tasks && s.tasks[t].phase.InFlight? && s.tasks[t].phase.limiter in s.limiters
    requires n.states == s.states && s.tasks[t].phase.limiter in n.limiters
    requires n.limiters[s.tasks[t].phase.limiter].nextRequest == Some(until)
    requires forall u :: u in n.tasks && n.tasks[u].phase.InFlight? ==> u != t && u in s.tasks && s.tasks[u] == n.tasks[u]
    ensures Quiet(n, s.tasks[t].endpoint, until)
  {
    hide CompletionsSpaced;
    var l := s.tasks[t].phase.limiter;
    assert HasLimiter(s, s.tasks[t]);
    forall u | u in n.tasks && n.tasks[u].phase.InFlight?
      ensures n.tasks[u].endpoint != s.tasks[t].endpoint
    {
      assert HasLimiter(s, s.tasks[u]);
      assert s.limiters[l].holder == Some(t);
    }
  }

  lemma CompletionRests(s: State, t: TaskId)
    requires Inv(s) && Enabled(s, Complete(t))
    ensures RestsAfter(After(s, Complete(t)), s.tasks[t].endpoint, s.clock)
  {
    hide Inv;
    EndedFlightIsQuiet(s, t, After(s, Complete(t)), s.clock + DEFAULT_REQUEST_PERIOD);
  }

  lemma LimitedIsQuiet(s: State, t: TaskId, wall: Time, hint: Option<RetryAfter>)
    requires Inv(s) && Enabled(s, ReceiveLimited(t, wall, hint))
    ensures Quiet(After(s, ReceiveLimited(t, wall, hint)), s.tasks[t].endpoint, NextAfterLimit(s.clock, wall, hint))
  {
    hide Inv, NextAfterLimit;
    EndedFlightIsQuiet(s, t, After(s, ReceiveLimited(t, wall, hint)), NextAfterLimit(s.clock, wall, hint));
  }

  lemma StepKeepsInv(s: State, e: Event)
    requires Inv(s) && Enabled(s, e)
    ensures Inv(After(s, e))
  {
    hide After;
    StepKeepsLimiters(s, e);
    StepKeepsTasks(s, e);
    StepKeepsHolders(s, e);
    StepKeepsSpacing(s, e);
  }

  lemma {:induction false} InvAlways(s: State, events: seq<Event>)
    requires Inv(s)
    ensures Execute(s, events).Some? ==> Inv(Execute(s, events).value)
  {
    if events != [] {
      var n := |events| - 1;
      InvAlways(s, events[..n]);
      var before := Execute(s, events[..n]);
      if before.Some? && Enabled(before.value, events[n]) {
        StepKeepsInv(before.value, events[n]);
      }
    }
  }

  lemma ReachableInv(s: State)
    requires Reachable(s)
    ensures Inv(s)
  {
    var events :| Execute(INITIAL, events) == Some(s);
    InvAlways(INITIAL, events);
  }

  // What the limiter guarantees

  /** Entries of the map are never replaced or removed, whatever happens next. */
  lemma {:induction false} LimitersAreForEver(s: State, events: seq<Event>)
    requires Inv(s) && Execute(s, events).Some?
    ensures forall e :: e in s.states ==>
              e in Execute(s, events).value.states && Execute(s, events).value.states[e] == s.states[e]
  {
    if events != [] {
      var n := |events| - 1;
      LimitersAreForEver(s, events[..n]);
      InvAlways(s, events[..n]);
      StepKeepsLimiters(Execute(s, events[..n]).value, events[n]);
    }
  }

  /** Tasks past the creation of the limiter share it exactly when they call the same endpoint. */
  lemma OneLimiterPerEndpoint(s: State, t: TaskId, u: TaskId)
    requires Reachable(s) && t in s.tasks && u in s.tasks
    requires !s.tasks[t].phase.Looking? && !s.tasks[t].phase.Allocated?
    requires !s.tasks[u].phase.Looking? && !s.tasks[u].phase.Allocated?
    ensures s.tasks[t].phase.limiter == s.tasks[u].phase.limiter <==> s.tasks[t].endpoint == s.tasks[u].endpoint
  {
    ReachableInv(s);
    assert HasLimiter(s, s.tasks[t]) && HasLimiter(s, s.tasks[u]);
  }

  /** At most one request of an endpoint is in flight, over all clones of the client. */
  lemma OneRequestInFlight(s: State, t: TaskId, u: TaskId)
    requires Reachable(s) && t in s.tasks && u in s.tasks
    requires s.tasks[t].phase.InFlight? && s.tasks[u].phase.InFlight? && s.tasks[t].endpoint == s.tasks[u].endpoint
    ensures t == u
  {
    ReachableInv(s);
    OneLimiterPerEndpoint(s, t, u);
    assert HasLimiter(s, s.tasks[t]);
    var l := s.tasks[t].phase.limiter;
    assert s.limiters[l].holder == Some(t) && s.tasks[u].phase.Holds(l);
  }

  /** A task that waits for its lock is kept waiting by a task of its own endpoint, and by no other. */
  lemma BlockedOnlyByOwnEndpoint(s: State, t: TaskId)
    requires Reachable(s) && t in s.tasks && s.tasks[t].phase.Acquiring?
    ensures Enabled(s, Lock(t)) <==>
            forall u :: u in s.tasks && (s.tasks[u].phase.Holding? || s.tasks[u].phase.InFlight?) ==>
              s.tasks[u].endpoint != s.tasks[t].endpoint
  {
    ReachableInv(s);
    assert HasLimiter(s, s.tasks[t]);
    var l := s.tasks[t].phase.limiter;
    if s.limiters[l].holder.Some? {
      var u := s.limiters[l].holder.value;
      assert s.tasks[u].phase.Holds(l) && HasLimiter(s, s.tasks[u]);
    }
    forall u | u in s.tasks && (s.tasks[u].phase.Holding? || s.tasks[u].phase.InFlight?)
               && s.tasks[u].endpoint == s.tasks[t].endpoint
      ensures s.limiters[l].holder == Some(u)
    {
      assert HasLimiter(s, s.tasks[u]);
    }
  }

  // Retries

  lemma {:induction false} QuietAlways(s: State, events: seq<Event>, f: Endpoint, until: Time)
    requires Inv(s) && Quiet(s, f, until) && Execute(s, events).Some?
    ensures Quiet(Execute(s, events).value, f, until)
  {
    hide Inv, Quiet;
    if events != [] {
      var n := |events| - 1;
      QuietAlways(s, events[..n], f, until);
      InvAlways(s, events[..n]);
      StepKeepsQuiet(Execute(s, events[..n]).value, events[n], f, until);
    }
  }

  /**
    After a limited response no task at all sends a request of that endpoint
    before the limit is over, whatever happens in between: the task that was
    limited may have been cancelled, and others may have taken its place.
   */
  lemma LimitedEndpointIsQuiet(s: State, t: TaskId, wall: Time, hint: Option<RetryAfter>, events: seq<Event>, u: TaskId)
    requires Reachable(s) && Enabled(s, ReceiveLimited(t, wall, hint))
    requires Execute(After(s, ReceiveLimited(t, wall, hint)), events).Some?
    requires var later := Execute(After(s, ReceiveLimited(t, wall, hint)), events).value;
             Enabled(later, Send(u)) && later.tasks[u].endpoint == s.tasks[t].endpoint
    ensures var later := Execute(After(s, ReceiveLimited(t, wall, hint)), events).value;
            && later.clock >= NextAfterLimit(s.clock, wall, hint)
            && (hint.None? ==> later.clock >= s.clock + 5000.0)
            && (hint.Some? && hint.value.Delay? ==> later.clock >= s.clock + hint.value.delay)
  {
    var n := After(s, ReceiveLimited(t, wall, hint));
    var endpoint, until := s.tasks[t].endpoint, NextAfterLimit(s.clock, wall, hint);
    ReachableInv(s);
    LimitedIsQuiet(s, t, wall, hint);
    StepKeepsInv(s, ReceiveLimited(t, wall, hint));
    InvAlways(n, events);
    QuietAlways(n, events, endpoint, until);
    hide Inv, After, Quiet;
    StepKeepsQuiet(Execute(n, events).value, Send(u), endpoint, until);
  }

  /**
    A limited task keeps its lock and sends again: that is possible from exactly
    the time on when the limit is over, and until then nobody else can take its
    place.
   */
  lemma LimitedTaskRetries(s: State, t: TaskId, wall: Time, hint: Option<RetryAfter>, wait: Duration)
    requires Reachable(s) && Enabled(s, ReceiveLimited(t, wall, hint))
    ensures var n := After(After(s, ReceiveLimited(t, wall, hint)), Tick(wait));
            && n.clock == s.clock + wait
            && (hint.None? ==> (Enabled(n, Send(t)) <==> wait >= 5000.0))
            && (hint.Some? && hint.value.Delay? ==> (Enabled(n, Send(t)) <==> wait >= hint.value.delay))
            && (hint.Some? && hint.value.DateTime? ==> (Enabled(n, Send(t)) <==> wait >= wall - hint.value.time))
            && forall u :: u in n.tasks && n.tasks[u].endpoint == n.tasks[t].endpoint ==> !Enabled(n, Lock(u))
  {
    ReachableInv(s);
    StepKeepsInv(s, ReceiveLimited(t, wall, hint));
    hide CompletionsSpaced, AllocatedApart;
    var n := After(s, ReceiveLimited(t, wall, hint));
    assert HasLimiter(s, s.tasks[t]) && s.tasks[t].phase.Holds(s.tasks[t].phase.limiter);
    assert HasLimiter(n, n.tasks[t]) && n.tasks[t].phase.Holds(n.tasks[t].phase.limiter);
    forall u | u in n.tasks && n.tasks[u].endpoint == n.tasks[t].endpoint
      ensures !Enabled(After(n, Tick(wait)), Lock(u))
    {
      assert HasLimiter(n, n.tasks[u]);
    }
  }

  /** A task that holds its lock can send from exactly the time on that its limiter allows, and a new one at once. */
  lemma SendsWhenAllowed(s: State, t: TaskId, wait: Duration)
    requires Reachable(s) && t in s.tasks && s.tasks[t].phase.Holding?
    ensures s.tasks[t].phase.limiter in s.limiters
    ensures var next := s.limiters[s.tasks[t].phase.limiter].nextRequest;
            Enabled(After(s, Tick(wait)), Send(t)) <==> next.None? || next.value <= s.clock + wait
  {
    ReachableInv(s);
    assert HasLimiter(s, s.tasks[t]);
  }

  /** A completed call leaves its endpoint free, and to be used again after exactly 200 ms. */
  lemma CompletedCallFreesEndpoint(s: State, t: TaskId)
    requires Reachable(s) && Enabled(s, Complete(t))
    ensures var n, l := After(s, Complete(t)), s.tasks[t].phase.limiter;
            && t !in n.tasks && l in n.limiters && n.limiters[l] == Limiter(Some(s.clock + 200.0), None)
            && n.CompletionsOf(s.tasks[t].endpoint) == s.CompletionsOf(s.tasks[t].endpoint) + [s.clock]
  {
    ReachableInv(s);
    assert HasLimiter(s, s.tasks[t]);
  }

  // One call

  lemma ExecuteMore(s: State, events: seq<Event>, e: Event)
    ensures Execute(s, events + [e]) ==
            var before := Execute(s, events);
            if before.Some? && Enabled(before.value, e) then Some(After(before.value, e)) else None
  {
    assert (events + [e])[..|events + [e]| - 1] == events;
  }

  /** The steps of a call to the endpoint up to its lock, if no other task gets in between. */
  function ToLock(s: State, t: TaskId, endpoint: Endpoint): seq<Event> {
    [Start(t, endpoint), ReadCheck(t)] + (if endpoint in s.states then [] else [Insert(t)])
  }

  /** The limit that a call to the endpoint finds. */
  function LimitOf(s: State, endpoint: Endpoint): Option<Time> {
    if endpoint in s.states && s.states[endpoint] in s.limiters then s.limiters[s.states[endpoint]].nextRequest else None
  }

  /** A call gets the limiter of its endpoint, a new one without a limit if there was none. */
  lemma CallFindsLimiter(s: State, t: TaskId, endpoint: Endpoint)
    requires Inv(s) && t !in s.tasks
    ensures Execute(s, ToLock(s, t, endpoint)).Some?
    ensures var n := Execute(s, ToLock(s, t, endpoint)).value;
            && n.clock == s.clock && n.completions == s.completions
            && endpoint in n.states && n.tasks == s.tasks[t := Task(endpoint, Acquiring(n.states[endpoint]))]
            && n.states == s.states[endpoint := n.states[endpoint]]
            && n.states[endpoint] in n.limiters && LimitOf(n, endpoint) == LimitOf(s, endpoint)
            && (endpoint in s.states ==> n.states == s.states && n.limiters == s.limiters)
            && (endpoint !in s.states ==> n.limiters == s.limiters[n.states[endpoint] := Limiter(None, None)] && n.states[endpoint] !in s.limiters)
  {
    FindsOrInserts(s, t, endpoint);
    hide After, Enabled, Inv, LimitOf, Found, OrInsert, OwnLimiters;
    var start, looked := [Start(t, endpoint)], [Start(t, endpoint), ReadCheck(t)];
    assert Execute(s, []) == Some(s) && [] + start == start && start + [ReadCheck(t)] == looked;
    ExecuteMore(s, [], Start(t, endpoint));
    ExecuteMore(s, start, ReadCheck(t));
    ExecuteMore(s, looked, Insert(t));
    assert endpoint in s.states ==> ToLock(s, t, endpoint) == looked;
  }

  lemma FindsOrInserts(s: State, t: TaskId, endpoint: Endpoint)
    requires OwnLimiters(s) && t !in s.tasks
    ensures Enabled(s, Start(t, endpoint)) && Enabled(After(s, Start(t, endpoint)), ReadCheck(t))
    ensures var looked := After(After(s, Start(t, endpoint)), ReadCheck(t));
            && (endpoint !in s.states ==> Enabled(looked, Insert(t)))
            && var n := if endpoint in s.states then looked else After(looked, Insert(t));
               && n.clock == s.clock && n.completions == s.completions
               && endpoint in n.states && n.tasks == s.tasks[t := Task(endpoint, Acquiring(n.states[endpoint]))]
               && n.states == s.states[endpoint := n.states[endpoint]]
               && n.states[endpoint] in n.limiters && LimitOf(n, endpoint) == LimitOf(s, endpoint)
               && (endpoint in s.states ==> n.states == s.states && n.limiters == s.limiters)
               && (endpoint !in s.states ==> n.limiters == s.limiters[n.states[endpoint] := Limiter(None, None)] && n.states[endpoint] !in s.limiters)
  {
  }

  /**
    A call to an endpoint that nobody else uses, with `wait` spent asleep: it can
    be completed exactly if the wait is as long as the limit asks for, and then
    leaves the time of its completion, and the next limit 200 ms later.
   */
  lemma UncontendedCall(s: State, t: TaskId, endpoint: Endpoint, wait: Duration)
    requires Reachable(s) && t !in s.tasks && forall u :: u in s.tasks ==> s.tasks[u].endpoint != endpoint
    ensures var end := Execute(s, ToLock(s, t, endpoint) + [Lock(t)] + [Tick(wait)] + [Send(t)] + [Complete(t)]);
            && (end.Some? <==> LimitOf(s, endpoint).None? || LimitOf(s, endpoint).value <= s.clock + wait)
            && (end.Some? ==>
                  && end.value.tasks == s.tasks && end.value.clock == s.clock + wait
                  && end.value.CompletionsOf(endpoint) == s.CompletionsOf(endpoint) + [s.clock + wait]
                  && LimitOf(end.value, endpoint) == Some(s.clock + wait + 200.0)
                  && forall f :: f in s.states && f != endpoint ==> LimitOf(end.value, f) == LimitOf(s, f))
  {
    ReachableInv(s);
    CallFindsLimiter(s, t, endpoint);
    var start := ToLock(s, t, endpoint);
    var n := Execute(s, start).value;
    InvAlways(s, start);
    assert n.limiters[n.states[endpoint]].holder.None? by {
      NobodyHolds(n, t, endpoint);
    }
    ExecuteMore(s, start, Lock(t));
    ExecuteMore(s, start + [Lock(t)], Tick(wait));
    ExecuteMore(s, start + [Lock(t)] + [Tick(wait)], Send(t));
    ExecuteMore(s, start + [Lock(t)] + [Tick(wait)] + [Send(t)], Complete(t));
    hide Execute, Inv, ToLock;
    LocksSendsCompletes(s, n, t, endpoint, wait);
  }

  lemma NobodyHolds(n: State, t: TaskId, endpoint: Endpoint)
    requires Inv(n) && t in n.tasks && n.tasks[t].phase.Acquiring? && n.tasks[t].endpoint == endpoint
    requires forall u :: u in n.tasks && u != t ==> n.tasks[u].endpoint != endpoint
    ensures endpoint in n.states && n.states[endpoint] in n.limiters && n.limiters[n.states[endpoint]].holder.None?
  {
    assert HasLimiter(n, n.tasks[t]);
    var l := n.states[endpoint];
    if n.limiters[l].holder.Some? {
      var u := n.limiters[l].holder.value;
      assert n.tasks[u].phase.Holds(l) && HasLimiter(n, n.tasks[u]);
    }
  }

  /** The last four steps of an uncontended call. */
  lemma LocksSendsCompletes(s: State, n: State, t: TaskId, endpoint: Endpoint, wait: Duration)
    requires t !in s.tasks && n.clock == s.clock && n.completions == s.completions
    requires endpoint in n.states && n.tasks == s.tasks[t := Task(endpoint, Acquiring(n.states[endpoint]))]
    requires n.states[endpoint] in n.limiters && n.limiters[n.states[endpoint]].holder.None?
    requires OwnLimiters(n)
    ensures Enabled(n, Lock(t))
    ensures var held := After(After(n, Lock(t)), Tick(wait));
            && (Enabled(held, Send(t)) <==> LimitOf(n, endpoint).None? || LimitOf(n, endpoint).value <= s.clock + wait)
            && (Enabled(held, Send(t)) ==>
                  && Enabled(After(held, Send(t)), Complete(t))
                  && var end := After(After(held, Send(t)), Complete(t));
                     && end.tasks == s.tasks && end.clock == s.clock + wait
                     && end.CompletionsOf(endpoint) == s.CompletionsOf(endpoint) + [s.clock + wait]
                     && LimitOf(end, endpoint) == Some(s.clock + wait + 200.0)
                     && forall f :: f in n.states && f != endpoint ==> LimitOf(end, f) == LimitOf(n, f))
  {
  }

  /** A cancelled call is gone, and lets go of its lock without moving the limit. */
  lemma CancelledCallIsGone(s: State, t: TaskId)
    requires Reachable(s) && t in s.tasks
    ensures Enabled(s, Cancel(t))
    ensures var n := After(s, Cancel(t));
            && n.tasks == s.tasks - {t} && n.states == s.states && n.completions == s.completions && n.clock == s.clock
            && forall l :: l in s.limiters ==>
                 && l in n.limiters && n.limiters[l].nextRequest == s.limiters[l].nextRequest
                 && n.limiters[l].holder == if s.limiters[l].holder == Some(t) then None else s.limiters[l].holder
  {
    ReachableInv(s);
    assert HasLimiter(s, s.tasks[t]);
    forall l | l in s.limiters
      ensures s.limiters[l].holder == Some(t) <==> s.tasks[t].phase.Holds(l)
    {
    }
  }

  // Throughput

  lemma {:induction false} SpacedApart(times: seq<Time>, i: nat, j: nat)
    requires Spaced(times) && i <= j < |times|
    ensures times[j] - times[i] >= (j - i) as real * DEFAULT_REQUEST_PERIOD
    decreases j
  {
    if i < j {
      SpacedApart(times, i, j - 1);
    }
  }

  /** Any `n` consecutive completions of an endpoint span at least `n - 1` periods. */
  lemma CompletionsSpanPeriods(s: State, e: Endpoint, i: nat, j: nat)
    requires Reachable(s) && i <= j < |s.CompletionsOf(e)|
    ensures s.CompletionsOf(e)[j] - s.CompletionsOf(e)[i] >= (j - i) as real * 200.0
  {
    ReachableInv(s);
    SpacedApart(s.CompletionsOf(e), i, j);
  }

  /** The calls that completed in the window of `width` from `from`. */
  function InWindow(times: seq<Time>, from: Time, width: Duration): set<nat> {
    set k: nat | k < |times| && from <= times[k] <= from + width
  }

  lemma {:induction false} IntervalSize(lo: nat, hi: nat, ks: set<nat>)
    requires forall k :: k in ks ==> lo <= k < hi
    requires lo <= hi
    ensures |ks| <= hi - lo
    decreases hi
  {
    if lo == hi {
      assert ks == {};
    } else {
      IntervalSize(lo, hi - 1, ks - {hi - 1});
    }
  }

  /** In any window of `width` at most `width / 200`, rounded down, plus one calls of an endpoint complete. */
  lemma WindowBound(s: State, e: Endpoint, from: Time, width: Duration)
    requires Reachable(s)
    ensures |InWindow(s.CompletionsOf(e), from, width)| <= (width / 200.0).Floor + 1
  {
    var times := s.CompletionsOf(e);
    var ks := InWindow(times, from, width);
    if ks != {} {
      var lo := First(ks);
      var hi := lo + (width / 200.0).Floor + 1;
      forall k | k in ks
        ensures lo <= k < hi
      {
        CompletionsSpanPeriods(s, e, lo, k);
        PeriodsInWidth(k - lo, width);
      }
      IntervalSize(lo, hi, ks);
    }
  }

  lemma PeriodsInWidth(n: nat, width: Duration)
    requires n as real * 200.0 <= width
    ensures n <= (width / 200.0).Floor
  {
    assert n as real <= width / 200.0;
  }

  lemma {:induction false} First(ks: set<nat>) returns (lo: nat)
    requires ks != {}
    ensures lo in ks && forall k :: k in ks ==> lo <= k
  {
    var x :| x in ks;
    var rest := ks - {x};
    assert ks == rest + {x};
    if rest == {} {
      lo := x;
    } else {
      lo := First(rest);
      if x < lo {
        lo := x;
      }
    }
  }
}
