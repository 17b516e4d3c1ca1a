/**
  The rate limiter of one endpoint (src/rate_limit.rs), used by the task that
  holds its lock. Times are in milliseconds.
 */
module RateLimit {
  import opened Wrappers

  type Time = real
  type Duration = d: real | d >= 0.0

  /** After a response that is not limited, an endpoint rests for this long. */
  const DEFAULT_REQUEST_PERIOD: Duration := 200.0
  /** After a limited response without a hint, for this long. */
  const DEFAULT_RETRY_AFTER: Duration := 5000.0

  datatype RetryAfter = Delay(delay: Duration) | DateTime(time: Time)

  /** A response that reports `LimitExceeded`, or any other response, errors included. */
  datatype Response = Limited(retryAfter: Option<RetryAfter>) | Final(body: int)

  /**
    When to retry after a limited response at `now`, with the system clock at
    `wall`. For a date the code adds the time since that date.
   */
  function NextAfterLimit(now: Time, wall: Time, hint: Option<RetryAfter>): Time {
    match hint
    case Some(Delay(delay)) => now + delay
    case Some(DateTime(time)) => if wall >= time then now + (wall - time) else now - (time - wall)
    case None => now + DEFAULT_RETRY_AFTER
  }

  /**
    A retry date is respected exactly when it is not in the future: the retry
    is then not before it; a date ahead of the system clock is retried too early.
   */
  lemma DateHintRespectedIffPast(now: Time, wall: Time, time: Time)
    ensures NextAfterLimit(now, wall, Some(DateTime(time))) == now - (time - wall)
    ensures NextAfterLimit(now, wall, Some(DateTime(time))) >= now + (time - wall) <==> time <= wall
  {
  }

  datatype Attempt = Attempt(sentAt: Time, receivedAt: Time, wall: Time, response: Response)

  /** The world around a call: how late its sleeps end, what the server answers and when, the system clock. */
  datatype Environment = Environment(
    start: Time,
    lateness: nat -> Duration,
    latency: nat -> Duration,
    wall: nat -> Time,
    respond: nat -> Response)

  /** Each retry waits for what the response before it asked for. */
  ghost predicate RetriesInTime(attempts: seq<Attempt>) {
    forall i :: 0 < i < |attempts| ==>
      var before := attempts[i - 1];
      && before.response.Limited?
      && attempts[i].sentAt >= before.receivedAt
      && attempts[i].sentAt >= NextAfterLimit(before.receivedAt, before.wall, before.response.retryAfter)
  }

  /** The attempts met the answers of `env` in order. */
  ghost predicate Answered(env: Environment, attempts: seq<Attempt>) {
    forall i :: 0 <= i < |attempts| ==>
      attempts[i].response == env.respond(i) && attempts[i].receivedAt >= attempts[i].sentAt
  }

  /** The call waited for its limiter before its first send. */
  ghost predicate FirstInTime(start: Time, next: Option<Time>, attempts: seq<Attempt>) {
    attempts != [] ==> attempts[0].sentAt >= start && (next.Some? ==> attempts[0].sentAt >= next.value)
  }

  /** Sends and responses are due exactly when the limit is over and the world lets them be. */
  ghost predicate Timed(env: Environment, first: Option<Time>, attempts: seq<Attempt>) {
    forall i :: 0 <= i < |attempts| ==> TimedAfter(env, first, attempts[..i], attempts[i])
  }

  ghost predicate TimedAfter(env: Environment, first: Option<Time>, before: seq<Attempt>, a: Attempt) {
    var i := |before|;
    && a.receivedAt == a.sentAt + env.latency(i) && a.wall == env.wall(i)
    && a.sentAt == if i == 0 then SendTime(env, i, env.start, first)
                   else SendTime(env, i, before[i - 1].receivedAt, NextAfter(before[i - 1]))
  }

  /** When the `i`-th send goes out, at `now` or later. */
  function SendTime(env: Environment, i: nat, now: Time, next: Option<Time>): Time {
    match next
    case Some(time) => (if now < time then time else now) + env.lateness(i)
    case None => now
  }

  function NextAfter(attempt: Attempt): Option<Time> {
    match attempt.response
    case Limited(hint) => Some(NextAfterLimit(attempt.receivedAt, attempt.wall, hint))
    case Final(_) => Some(attempt.receivedAt + DEFAULT_REQUEST_PERIOD)
  }

  ghost predicate AllLimited(attempts: seq<Attempt>) {
    forall i :: 0 <= i < |attempts| ==> attempts[i].response.Limited?
  }

  /** What a call that has only been limited so far leaves in the limiter, at time `now`. */
  ghost predicate StillLimited(attempts: seq<Attempt>, now: Time, next: Option<Time>)
    requires attempts != []
  {
    var last := attempts[|attempts| - 1];
    now == last.receivedAt && last.response.Limited? && next == Some(NextAfterLimit(now, last.wall, last.response.retryAfter))
  }

  /** A call that started with the limit `first`, and has only been limited so far. */
  ghost predicate LimitedSoFar(env: Environment, first: Option<Time>, attempts: seq<Attempt>, now: Time, next: Option<Time>) {
    && Answered(env, attempts) && AllLimited(attempts) && RetriesInTime(attempts)
    && FirstInTime(env.start, first, attempts) && Timed(env, first, attempts)
    && (attempts == [] ==> now == env.start && next == first)
    && (attempts != [] ==> StillLimited(attempts, now, next))
  }

  /** A call whose last attempt, and no other, was not limited. */
  ghost predicate Ended(env: Environment, first: Option<Time>, attempts: seq<Attempt>) {
    && |attempts| > 0 && attempts[|attempts| - 1].response.Final?
    && Answered(env, attempts) && AllLimited(attempts[..|attempts| - 1]) && RetriesInTime(attempts)
    && FirstInTime(env.start, first, attempts) && Timed(env, first, attempts)
  }

  lemma NextAttempt(env: Environment, first: Option<Time>, attempts: seq<Attempt>, now: Time, next: Option<Time>, a: Attempt)
    requires LimitedSoFar(env, first, attempts, now, next)
    requires a.sentAt == SendTime(env, |attempts|, now, next)
    requires a == Attempt(a.sentAt, a.sentAt + env.latency(|attempts|), env.wall(|attempts|), env.respond(|attempts|))
    ensures a.response.Limited? ==>
              LimitedSoFar(env, first, attempts + [a], a.receivedAt, Some(NextAfterLimit(a.receivedAt, a.wall, a.response.retryAfter)))
    ensures a.response.Final? ==> Ended(env, first, attempts + [a])
  {
    hide Answered, RetriesInTime, FirstInTime, Timed, NextAfterLimit;
    assert (attempts + [a])[..|attempts|] == attempts;
    AnsweredStep(env, attempts, a);
    RetriesStep(attempts, now, next, a);
    TimedStep(env, first, attempts, now, next, a);
  }

  lemma AnsweredStep(env: Environment, attempts: seq<Attempt>, a: Attempt)
    requires Answered(env, attempts) && a.receivedAt >= a.sentAt && a.response == env.respond(|attempts|)
    ensures Answered(env, attempts + [a])
  {
  }

  lemma RetriesStep(attempts: seq<Attempt>, now: Time, next: Option<Time>, a: Attempt)
    requires RetriesInTime(attempts) && AllLimited(attempts) && (attempts != [] ==> StillLimited(attempts, now, next))
    requires a.sentAt >= now && (next.Some? ==> a.sentAt >= next.value)
    ensures RetriesInTime(attempts + [a])
  {
    hide NextAfterLimit;
  }

  lemma TimedStep(env: Environment, first: Option<Time>, attempts: seq<Attempt>, now: Time, next: Option<Time>, a: Attempt)
    requires Timed(env, first, attempts) && FirstInTime(env.start, first, attempts)
    requires attempts == [] ==> now == env.start && next == first
    requires attempts != [] ==> StillLimited(attempts, now, next)
    requires a.sentAt == SendTime(env, |attempts|, now, next)
    requires a.receivedAt == a.sentAt + env.latency(|attempts|) && a.wall == env.wall(|attempts|)
    ensures Timed(env, first, attempts + [a]) && FirstInTime(env.start, first, attempts + [a])
  {
    hide NextAfterLimit;
    var more := attempts + [a];
    forall i | 0 <= i < |more|
      ensures TimedAfter(env, first, more[..i], more[i])
    {
      assert i < |attempts| ==> more[..i] == attempts[..i] && more[i] == attempts[i];
      assert more[..|attempts|] == attempts;
    }
  }

  class LimitState {
    /** No request before this time, if there is one. */
    var nextRequest: Option<Time>

    constructor ()
      ensures nextRequest == None
    {
      nextRequest := None;
    }

    /** Sends until a response is not limited; ends if the server does not limit for ever. */
    method SendRequest(env: Environment) returns (response: Response, attempts: seq<Attempt>)
      requires exists n :: env.respond(n).Final?
      modifies this
      ensures |attempts| > 0 && response.Final? && response == attempts[|attempts| - 1].response
      ensures Answered(env, attempts) && AllLimited(attempts[..|attempts| - 1])
      ensures FirstInTime(env.start, old(nextRequest), attempts)
      ensures RetriesInTime(attempts) && Timed(env, old(nextRequest), attempts)
      ensures nextRequest == Some(attempts[|attempts| - 1].receivedAt + 200.0)
    {
      hide LimitedSoFar, NextAfterLimit, Answered, AllLimited, RetriesInTime, FirstInTime, Timed;
      ghost var final: nat :| env.respond(final).Final?;
      attempts := [];
      var now := env.start;
      NoAttempts(env, nextRequest);
      while true
        invariant LimitedSoFar(env, old(nextRequest), attempts, now, nextRequest)
        invariant |attempts| <= final
        decreases final - |attempts|
      {
        var i := |attempts|;
        var sentAt := now;
        if nextRequest.Some? {
          sentAt := (if now < nextRequest.value then nextRequest.value else now) + env.lateness(i);
        }
        var attempt := Attempt(sentAt, sentAt + env.latency(i), env.wall(i), env.respond(i));
        NextAttempt(env, old(nextRequest), attempts, now, nextRequest, attempt);
        now := attempt.receivedAt;
        response := attempt.response;
        attempts := attempts + [attempt];
        if response.Limited? {
          nextRequest := Some(NextAfterLimit(now, attempt.wall, response.retryAfter));
        } else {
          nextRequest := Some(now + DEFAULT_REQUEST_PERIOD);
          return;
        }
      }
    }
  }

  lemma NoAttempts(env: Environment, next: Option<Time>)
    ensures LimitedSoFar(env, next, [], env.start, next)
  {
  }

  type Endpoint = nat

  // The map of limiters, for limiters of any type

  function Found<L>(states: map<Endpoint, L>, endpoint: Endpoint): Option<L> {
    if endpoint in states then Some(states[endpoint]) else None
  }

  /** A limiter that is there already is kept. */
  function OrInsert<L>(states: map<Endpoint, L>, endpoint: Endpoint, limiter: L): map<Endpoint, L> {
    if endpoint in states then states else states[endpoint := limiter]
  }

  /** The client, as one task at a time uses it: an independent limiter for each endpoint. */
  class RateLimitedClient {
    var states: map<Endpoint, LimitState>

    ghost predicate Valid()
      reads this
    {
      forall e, f :: e in states && f in states && states[e] == states[f] ==> e == f
    }

    constructor ()
      ensures Valid() && states == map[]
    {
      states := map[];
    }

    /** The section under the read lock. */
    method ReadCheck(endpoint: Endpoint) returns (state: Option<LimitState>)
      ensures state == Found(states, endpoint)
    {
      if endpoint in states {
        return Some(states[endpoint]);
      }
      return None;
    }

    /** The section under the write lock: another task may have been here since the read check. */
    method Insert(endpoint: Endpoint, created: LimitState) returns (state: LimitState)
      modifies this
      ensures states == OrInsert(old(states), endpoint, created)
      ensures endpoint in states && state == states[endpoint]
    {
      if endpoint !in states {
        states := states[endpoint := created];
      }
      state := states[endpoint];
    }

    /** The limiter of an endpoint, created on first use and never replaced. */
    method RequestState(endpoint: Endpoint) returns (state: LimitState)
      requires Valid()
      modifies this
      ensures Valid()
      ensures states == old(states)[endpoint := state]
      ensures endpoint in old(states) ==> state == old(states)[endpoint]
      ensures endpoint !in old(states) ==> fresh(state) && state.nextRequest == None
    {
      var found := ReadCheck(endpoint);
      if found.Some? {
        return found.value;
      }
      var created := new LimitState();
      state := Insert(endpoint, created);
    }

    /** A call waits for its own endpoint only, and moves no other endpoint's limit. */
    method SendRequest(endpoint: Endpoint, env: Environment) returns (response: Response, attempts: seq<Attempt>)
      requires Valid() && exists n :: env.respond(n).Final?
      modifies this, if endpoint in states then {states[endpoint]} else {}
      ensures Valid()
      ensures states.Keys == old(states.Keys) + {endpoint}
      ensures forall e :: e in old(states) ==> states[e] == old(states)[e]
      ensures forall e :: e in old(states) && e != endpoint ==> states[e].nextRequest == old(states[e].nextRequest)
      ensures |attempts| > 0 && response == attempts[|attempts| - 1].response && response.Final?
      ensures endpoint in old(states) && old(states[endpoint].nextRequest).Some? ==>
                attempts[0].sentAt >= old(states[endpoint].nextRequest).value
      ensures RetriesInTime(attempts)
      ensures states[endpoint].nextRequest == Some(attempts[|attempts| - 1].receivedAt + 200.0)
    {
      var state := RequestState(endpoint);
      response, attempts := state.SendRequest(env);
    }
  }

  /**
    The next send after a limited response: exactly when the delay is over, or 5 s
    without a hint, and as late as the sleep ends. A date in the future is no
    delay at all.
   */
  lemma RetryTimeExact(env: Environment, first: Option<Time>, attempts: seq<Attempt>, i: nat)
    requires Timed(env, first, attempts) && RetriesInTime(attempts) && i + 1 < |attempts|
    ensures var limited, next := attempts[i], attempts[i + 1];
            && limited.response.Limited? && next.receivedAt == next.sentAt + env.latency(i + 1)
            && match limited.response.retryAfter
               case None => next.sentAt == limited.receivedAt + 5000.0 + env.lateness(i + 1)
               case Some(Delay(delay)) => next.sentAt == limited.receivedAt + delay + env.lateness(i + 1)
               case Some(DateTime(time)) =>
                 next.sentAt == limited.receivedAt + (if time <= limited.wall then limited.wall - time else 0.0) + env.lateness(i + 1)
  {
    var limited, next := attempts[i], attempts[i + 1];
    assert limited.response.Limited? && TimedAfter(env, first, attempts[..i + 1], next);
  }

  /** The first send of a call: at once, or as the limit that it found allows. */
  lemma FirstSendExact(env: Environment, first: Option<Time>, attempts: seq<Attempt>)
    requires Timed(env, first, attempts) && attempts != []
    ensures attempts[0].receivedAt == attempts[0].sentAt + env.latency(0)
    ensures first.None? ==> attempts[0].sentAt == env.start
    ensures first.Some? && first.value >= env.start ==> attempts[0].sentAt == first.value + env.lateness(0)
    ensures first.Some? && first.value < env.start ==> attempts[0].sentAt == env.start + env.lateness(0)
  {
    assert TimedAfter(env, first, attempts[..0], attempts[0]);
  }

  /** After a limited response with a delay, or with no hint, no later send of the call comes before that is over. */
  lemma {:induction false} RetryDelayFloor(env: Environment, attempts: seq<Attempt>, i: nat, j: nat)
    requires RetriesInTime(attempts) && Answered(env, attempts) && i < j < |attempts|
    ensures var limited := attempts[i];
            && limited.response.Limited? && attempts[j].sentAt >= limited.receivedAt
            && (limited.response.retryAfter.None? ==> attempts[j].sentAt >= limited.receivedAt + 5000.0)
            && (limited.response.retryAfter.Some? && limited.response.retryAfter.value.Delay? ==>
                  attempts[j].sentAt >= limited.receivedAt + limited.response.retryAfter.value.delay)
    decreases j
  {
    var before, next := attempts[j - 1], attempts[j];
    assert before.response.Limited? && next.sentAt >= before.receivedAt;
    assert next.sentAt >= NextAfterLimit(before.receivedAt, before.wall, before.response.retryAfter);
    if i + 1 < j {
      RetryDelayFloor(env, attempts, i, j - 1);
      assert before.receivedAt >= before.sentAt;
    } else {
      assert before == attempts[i];
    }
  }
}
