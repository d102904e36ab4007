/** The circuit breaker and the retry loop of the shared HTTP client (http.py). */
module CircuitBreaker {
  import opened Common

  datatype CircuitState = Closed | Open | HalfOpen

  /** The breaker's stored fields. */
  datatype Fields = Fields(state: CircuitState, failureCount: nat, lastFailureTime: real)

  const FRESH := Fields(Closed, 0, 0.0)

  /** What callers can do to a breaker: report an outcome, or look at its state. */
  datatype Event = Succeeded(at: real) | Failed(at: real) | Read(at: real)

  /** The effect of one event on the stored fields; even a read may move OPEN to HALF_OPEN. */
  function Step(threshold: int, reset: real, f: Fields, e: Event): Fields {
    match e
    case Succeeded(_) => Fields(Closed, 0, f.lastFailureTime)
    case Failed(at) =>
      Fields(if f.state == HalfOpen || f.failureCount + 1 >= threshold then Open else f.state, f.failureCount + 1, at)
    case Read(at) => if f.state == Open && at - f.lastFailureTime >= reset then f.(state := HalfOpen) else f
  }

  function Run(threshold: int, reset: real, f: Fields, events: seq<Event>): Fields {
    if events == [] then f
    else Step(threshold, reset, Run(threshold, reset, f, events[..|events| - 1]), events[|events| - 1])
  }

  // ---- The history that the fields stand for ----

  /** Failures since the last success; reads do not count. */
  function TrailingFailures(events: seq<Event>): nat {
    if events == [] then 0
    else match events[|events| - 1]
      case Succeeded(_) => 0
      case Failed(_) => 1 + TrailingFailures(events[..|events| - 1])
      case Read(_) => TrailingFailures(events[..|events| - 1])
  }

  /** The time of the last failure, meaningful while there are trailing failures. */
  function LastFailure(events: seq<Event>): real {
    if events == [] then 0.0
    else if events[|events| - 1].Failed? then events[|events| - 1].at
    else LastFailure(events[..|events| - 1])
  }

  ghost predicate MonotoneClock(events: seq<Event>) {
    forall i, j :: 0 <= i < j < |events| ==> events[i].at <= events[j].at
  }

  /** A threshold below one behaves as one: nothing is refused before the first failure. */
  function Threshold(threshold: int): nat {
    if threshold < 1 then 1 else threshold
  }

  /** The decision, read off the history alone. */
  predicate Admits(threshold: int, reset: real, events: seq<Event>, now: real) {
    TrailingFailures(events) < Threshold(threshold) || now - LastFailure(events) >= reset
  }

  predicate AllowsRequest(f: Fields) {
    f.state == Closed || f.state == HalfOpen
  }

  lemma {:induction false} FieldsMatchHistory(threshold: int, reset: real, events: seq<Event>)
    requires MonotoneClock(events)
    ensures var f := Run(threshold, reset, FRESH, events);
      && f.failureCount == TrailingFailures(events)
      && f.lastFailureTime == LastFailure(events)
      && (f.state == Closed <==> TrailingFailures(events) < Threshold(threshold))
      && (f.state == HalfOpen ==> events != [] && events[|events| - 1].at - LastFailure(events) >= reset)
  {
    if events != [] {
      var n := |events| - 1;
      FieldsMatchHistory(threshold, reset, events[..n]);
      if n > 0 {
        assert events[..n][n - 1] == events[n - 1];
      }
    }
  }

  /**
    After any interleaving of outcomes and reads, a request at `now` is admitted exactly when the
    history admits it, and the stored state is CLOSED exactly while the count is below the threshold.
   */
  lemma BreakerRefinesHistory(threshold: int, reset: real, events: seq<Event>, now: real)
    requires MonotoneClock(events + [Read(now)])
    ensures AllowsRequest(Run(threshold, reset, FRESH, events + [Read(now)])) <==> Admits(threshold, reset, events, now)
    ensures Run(threshold, reset, FRESH, events).state == Closed
      <==> Run(threshold, reset, FRESH, events).failureCount < Threshold(threshold)
  {
    var all := events + [Read(now)];
    assert all[..|events|] == events;
    assert MonotoneClock(events) by {
      assert forall i :: 0 <= i < |events| ==> all[i] == events[i];
    }
    FieldsMatchHistory(threshold, reset, events);
    if events != [] {
      assert all[|events| - 1].at <= all[|events|].at;
    }
  }

  lemma RunSnoc(threshold: int, reset: real, events: seq<Event>, e: Event)
    ensures Run(threshold, reset, FRESH, events + [e])
      == Step(threshold, reset, Run(threshold, reset, FRESH, events), e)
  {
    assert (events + [e])[..|events|] == events;
  }

  class Breaker {
    const failureThreshold: int
    const resetTimeout: real
    var state: CircuitState
    var failureCount: nat
    var lastFailureTime: real

    constructor (failureThreshold: int, resetTimeout: real)
      ensures this.failureThreshold == failureThreshold && this.resetTimeout == resetTimeout
      ensures Follows([])
    {
      this.failureThreshold, this.resetTimeout := failureThreshold, resetTimeout;
      state, failureCount, lastFailureTime := Closed, 0, 0.0;
    }

    function Stored(): Fields
      reads this
    {
      Fields(state, failureCount, lastFailureTime)
    }

    /** The stored fields are what this history leads to. */
    ghost predicate Follows(history: seq<Event>)
      reads this
    {
      Stored() == Run(failureThreshold, resetTimeout, FRESH, history)
    }

    method ReadState(now: real, ghost history: seq<Event>) returns (current: CircuitState)
      requires Follows(history)
      modifies this`state
      ensures Follows(history + [Read(now)]) && current == state
    {
      RunSnoc(failureThreshold, resetTimeout, history, Read(now));
      if state == Open {
        var elapsed := now - lastFailureTime;
        if elapsed >= resetTimeout {
          state := HalfOpen;
        }
      }
      current := state;
    }

    method RecordSuccess(now: real, ghost history: seq<Event>)
      requires Follows(history)
      modifies this
      ensures Follows(history + [Succeeded(now)])
    {
      RunSnoc(failureThreshold, resetTimeout, history, Succeeded(now));
      failureCount := 0;
      state := Closed;
    }

    method RecordFailure(now: real, ghost history: seq<Event>)
      requires Follows(history)
      modifies this
      ensures Follows(history + [Failed(now)])
    {
      RunSnoc(failureThreshold, resetTimeout, history, Failed(now));
      failureCount := failureCount + 1;
      lastFailureTime := now;
      if state == HalfOpen || failureCount >= failureThreshold {
        state := Open;
      }
    }

    /** Admission, decided by the history alone. */
    method AllowRequest(now: real, ghost history: seq<Event>) returns (allowed: bool)
      requires Follows(history) && MonotoneClock(history + [Read(now)])
      modifies this`state
      ensures allowed <==> Admits(failureThreshold, resetTimeout, history, now)
      ensures Follows(history + [Read(now)])
    {
      BreakerRefinesHistory(failureThreshold, resetTimeout, history, now);
      var current := ReadState(now, history);
      allowed := current == Closed || current == HalfOpen;
    }

    /** Other requests in flight on the same client, using the breaker while this one waits. */
    method Interleave(events: seq<Event>, ghost history: seq<Event>)
      requires Follows(history)
      modifies this
      ensures Follows(history + events)
    {
      assert history + events[..0] == history;
      for i := 0 to |events|
        invariant Follows(history + events[..i])
      {
        assert history + events[..i] + [events[i]] == history + events[..i + 1];
        match events[i]
        case Succeeded(at) => RecordSuccess(at, history + events[..i]);
        case Failed(at) => RecordFailure(at, history + events[..i]);
        case Read(at) => var _ := ReadState(at, history + events[..i]);
      }
      assert events[..|events|] == events;
    }
  }

  // ---- Bounded retry with exponential backoff ----

  /** One exchange: a response, a connection error, or an exception the loop does not catch. */
  datatype Exchange = Response(status: int) | ConnectError | Uncaught

  datatype Result = CircuitOpen | Returned(status: int) | RaisedConnectError | Escaped | FellThrough

  /** _RETRYABLE_STATUS_CODES, and the connection errors the loop catches. */
  predicate Retryable(exchange: Exchange) {
    exchange.ConnectError? || (exchange.Response? && exchange.status in {502, 503, 504})
  }

  function Pow2(n: nat): nat {
    if n == 0 then 1 else 2 * Pow2(n - 1)
  }

  function Delay(base: real, attempt: nat): real {
    base * Pow2(attempt) as real
  }

  function TotalDelay(base: real, retries: nat): real {
    if retries == 0 then 0.0 else TotalDelay(base, retries - 1) + Delay(base, retries - 1)
  }

  /**
    The attempts that the exchanges call for: one is followed by another exactly when attempts remain and it was a
    connection error or answered 502, 503 or 504.
   */
  ghost predicate AttemptsMade(exchanges: nat -> Exchange, maxRetries: int, attempts: nat) {
    && 1 <= attempts <= maxRetries + 1
    && (forall i :: 0 <= i < attempts - 1 ==>
          exchanges(i) in {ConnectError, Response(502), Response(503), Response(504)})
    && (attempts <= maxRetries ==>
          exchanges(attempts - 1) !in {ConnectError, Response(502), Response(503), Response(504)})
  }

  /** What the caller gets of the last exchange. */
  predicate Yields(exchange: Exchange, result: Result) {
    match exchange
    case Response(status) => result == Returned(status)
    case ConnectError => result == RaisedConnectError
    case Uncaught => result == Escaped
  }

  /** The breaker's reading of the last exchange; an exception the loop lets through is not charged at all. */
  function Charge(exchange: Exchange, at: real): seq<Event> {
    match exchange
    case ConnectError => [Failed(at)]
    case Response(502) => [Failed(at)]
    case Response(503) => [Failed(at)]
    case Response(504) => [Failed(at)]
    case Response(_) => [Succeeded(at)]
    case Uncaught => []
  }

  /** What other requests did to the breaker during the first n attempts of this one. */
  function Meanwhile(others: nat -> seq<Event>, n: nat): seq<Event> {
    if n == 0 then [] else Meanwhile(others, n - 1) + others(n - 1)
  }

  /** One attempt: the exchange, what others did to the breaker meanwhile, and the charge if it settles the request. */
  method Attempt(circuit: Breaker, exchange: Exchange, now: real, meanwhile: seq<Event>, last: bool,
                 ghost before: seq<Event>)
    returns (settled: bool, result: Result)
    requires circuit.Follows(before)
    modifies circuit
    ensures settled <==> last || exchange !in {ConnectError, Response(502), Response(503), Response(504)}
    ensures Yields(exchange, result)
    ensures circuit.Follows(before + meanwhile + if settled then Charge(exchange, now) else [])
  {
    circuit.Interleave(meanwhile, before);
    ghost var waited := before + meanwhile;
    assert waited + [] == waited;
    if exchange.Uncaught? {
      return true, Escaped;
    }
    result := if exchange.ConnectError? then RaisedConnectError else Returned(exchange.status);
    if !Retryable(exchange) {
      circuit.RecordSuccess(now, waited);
      return true, result;
    }
    if last {
      circuit.RecordFailure(now, waited);
    }
    settled := last;
  }

  /**
    ServiceHttpClient._execute_with_retry against an arbitrary stream of exchanges, with other requests
    using the breaker meanwhile. `clock(k)` is the time of admission for k = 0 and the time after attempt k
    otherwise. Nothing is sent when the breaker refuses; otherwise the last exchange decides the result and is
    charged once, as failed for a connection error or a 502, 503 or 504, and as succeeded for any other response.
   */
  method ExecuteWithRetry(circuit: Breaker, maxRetries: int, backoffBase: real, exchanges: nat -> Exchange,
                          clock: nat -> real, others: nat -> seq<Event>, ghost history: seq<Event>)
    returns (result: Result, attempts: nat, slept: real)
    requires circuit.Follows(history) && MonotoneClock(history + [Read(clock(0))])
    modifies circuit
    ensures Admits(circuit.failureThreshold, circuit.resetTimeout, history, clock(0)) <==> result != CircuitOpen
    ensures result == CircuitOpen ==> attempts == 0 && slept == 0.0 && circuit.Follows(history + [Read(clock(0))])
    ensures result == FellThrough <==> result != CircuitOpen && maxRetries < 0
    ensures result != CircuitOpen && maxRetries >= 0 ==>
      && AttemptsMade(exchanges, maxRetries, attempts)
      && Yields(exchanges(attempts - 1), result)
      && slept == TotalDelay(backoffBase, attempts - 1)
      && circuit.Follows(history + [Read(clock(0))] + Meanwhile(others, attempts)
                         + Charge(exchanges(attempts - 1), clock(attempts)))
  {
    attempts, slept := 0, 0.0;
    ghost var admitted := history + [Read(clock(0))];
    var allowed := circuit.AllowRequest(clock(0), history);
    if !allowed {
      return CircuitOpen, attempts, slept;
    }
    assert admitted + Meanwhile(others, 0) == admitted;
    while attempts < maxRetries + 1
      invariant 0 <= attempts
      invariant maxRetries >= 0 ==> attempts <= maxRetries
      invariant maxRetries < 0 ==> attempts == 0
      invariant forall i :: 0 <= i < attempts ==>
        exchanges(i) in {ConnectError, Response(502), Response(503), Response(504)}
      invariant slept == TotalDelay(backoffBase, attempts)
      invariant circuit.Follows(admitted + Meanwhile(others, attempts))
      decreases maxRetries - attempts
    {
      ghost var before := admitted + Meanwhile(others, attempts);
      var exchange := exchanges(attempts);
      var settled;
      settled, result :=
        Attempt(circuit, exchange, clock(attempts + 1), others(attempts), attempts == maxRetries, before);
      Waited(admitted, others, attempts);
      attempts := attempts + 1;
      if settled {
        return;
      }
      slept := slept + Delay(backoffBase, attempts - 1);
    }
    return FellThrough, attempts, slept;
  }

  lemma Waited(admitted: seq<Event>, others: nat -> seq<Event>, n: nat)
    ensures admitted + Meanwhile(others, n) + others(n) == admitted + Meanwhile(others, n + 1)
    ensures admitted + Meanwhile(others, n + 1) + [] == admitted + Meanwhile(others, n + 1)
  {}

  /** The waits of n retries add up to the base times 2^n - 1. */
  lemma {:induction false} TotalDelayClosed(base: real, n: nat)
    ensures TotalDelay(base, n) == base * (Pow2(n) - 1) as real
  {
    if n > 0 {
      TotalDelayClosed(base, n - 1);
      assert (Pow2(n) - 1) as real == (Pow2(n - 1) - 1) as real + Pow2(n - 1) as real;
    }
  }
}
