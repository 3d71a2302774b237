/** The retry loops: src/grpc.rs and connect_to_peer_with_retry of src/offers/lnd_requests.rs. */
module Retry {
  import opened Common

  // ---- Bounded retry of a call ----

  const MAX_RETRY_ATTEMPTS: u8 := 5

  /** The status codes of gRPC. */
  datatype Code =
    | Success | Cancelled | Unknown | InvalidArgument | DeadlineExceeded | NotFound | AlreadyExists
    | PermissionDenied | ResourceExhausted | FailedPrecondition | Aborted | OutOfRange | Unimplemented
    | Internal | Unavailable | DataLoss | Unauthenticated

  /** The number a code has on the wire. */
  function Number(code: Code): nat {
    match code
    case Success => 0
    case Cancelled => 1
    case Unknown => 2
    case InvalidArgument => 3
    case DeadlineExceeded => 4
    case NotFound => 5
    case AlreadyExists => 6
    case PermissionDenied => 7
    case ResourceExhausted => 8
    case FailedPrecondition => 9
    case Aborted => 10
    case OutOfRange => 11
    case Unimplemented => 12
    case Internal => 13
    case Unavailable => 14
    case DataLoss => 15
    case Unauthenticated => 16
  }

  datatype Reply = Response(value: nat) | Status(code: Code, message: nat)

  predicate Retryable(reply: Reply) {
    reply.Status? && (reply.code.Unavailable? || reply.code.DeadlineExceeded? || reply.code.Aborted? || reply.code.Unknown?)
  }

  /** Exactly four statuses are taken to be the network's fault. */
  lemma RetryableCodes(reply: Reply)
    ensures Retryable(reply) <==> reply.Status? && Number(reply.code) in {2, 4, 10, 14}
  {
  }

  /** The calls allowed: one even for a limit of zero. */
  function Allowed(maxAttempts: Option<u8>): nat {
    match maxAttempts
    case None => MAX_RETRY_ATTEMPTS
    case Some(m) => if m == 0 then 1 else m
  }

  /**
   Returns the first reply that is a success or an error not worth retrying, if there is one
   among the calls allowed, and the last reply of those otherwise.
   */
  method WithMaxAttempts(reply: nat -> Reply, maxAttempts: Option<u8>) returns (r: Reply, calls: nat)
    ensures 1 <= calls <= Allowed(maxAttempts)
    ensures r == reply(calls - 1)
    ensures forall i: nat :: i < calls - 1 ==> Retryable(reply(i))
    ensures Retryable(r) ==> calls == Allowed(maxAttempts)
    ensures maxAttempts.None? ==> calls <= 5 && (Retryable(r) ==> calls == 5)
  {
    var attempt: u8 := 0;
    var maxRetryAttempts: u8 := if maxAttempts.Some? then maxAttempts.value else MAX_RETRY_ATTEMPTS;
    calls := 0;
    while true
      invariant calls == attempt && (attempt == 0 || attempt < maxRetryAttempts)
      invariant forall i: nat :: i < calls ==> Retryable(reply(i))
      decreases 256 - attempt
    {
      r := reply(calls);
      calls := calls + 1;
      match r
      case Response(_) => return;
      case Status(_, _) =>
        if !Retryable(r) {
          return;
        }
        attempt := attempt + 1;
        if attempt >= maxRetryAttempts {
          return;
        }
    }
  }

  // ---- Connecting with exponential backoff ----

  const INITIAL_DELAY_MS: u64 := 500
  const MAX_DELAY_MS: u64 := 60_000
  const MAX_ATTEMPTS: nat := 10

  /** The wait before attempt `n + 2`, in milliseconds. */
  function Delay(n: nat): nat {
    if INITIAL_DELAY_MS * Pow2(n) < MAX_DELAY_MS then INITIAL_DELAY_MS * Pow2(n) else MAX_DELAY_MS
  }

  /** Half a second at first, then doubled each time, up to a minute. */
  lemma DelayDoubles(n: nat)
    ensures Delay(0) == 500 && Delay(n + 1) == if 2 * Delay(n) < 60_000 then 2 * Delay(n) else 60_000
  {
  }

  function Sum(delays: seq<u64>): nat {
    if delays == [] then 0 else Sum(delays[..|delays| - 1]) + delays[|delays| - 1]
  }

  lemma DelayMonotone(m: nat, n: nat)
    requires m <= n
    ensures Delay(m) <= Delay(n)
  {
    Pow2Monotone(m, n);
  }

  function TotalDelay(n: nat): nat {
    if n == 0 then 0 else TotalDelay(n - 1) + Delay(n - 1)
  }

  lemma {:induction false} SumIsTotal(delays: seq<u64>)
    requires forall i :: 0 <= i < |delays| ==> delays[i] == Delay(i)
    ensures Sum(delays) == TotalDelay(|delays|)
  {
    if delays == [] {
    } else {
      SumIsTotal(delays[..|delays| - 1]);
    }
  }

  /** All ten waits together come to 243.5 seconds. */
  lemma TotalDelayBound(n: nat)
    requires n <= MAX_ATTEMPTS
    ensures TotalDelay(n) <= TotalDelay(MAX_ATTEMPTS) == 243_500
  {
  }

  /** No shutdown comes before any of the first `n` attempts, and all of them fail. */
  ghost predicate FailFirst(connect: nat -> Result<(), nat>, shutdown: nat -> bool, n: int) {
    forall i: nat :: i < n ==> !shutdown(i) && connect(i).Err?
  }

  /**
   `connect(i)` is the outcome of attempt `i`, `shutdown(i)` whether the signal fires before it
   (while waiting for it). It fails exactly if eleven attempts fail and no shutdown interrupts
   them, with the last error; otherwise it is done at the first success or shutdown.
   */
  method ConnectToPeerWithRetry(connect: nat -> Result<(), nat>, shutdown: nat -> bool)
    returns (r: Result<(), nat>, attempts: nat, delays: seq<u64>)
    ensures attempts <= 11 && |delays| <= 10
    ensures r.Err? <==> FailFirst(connect, shutdown, 11)
    ensures r.Err? ==> attempts == 11 && r == connect(10)
    ensures r.Ok? ==> shutdown(attempts) || (attempts > 0 && connect(attempts - 1).Ok?)
    ensures FailFirst(connect, shutdown, attempts - 1) && (attempts > 0 ==> !shutdown(attempts - 1))
    ensures attempts - 1 <= |delays| <= attempts
    ensures forall i :: 0 <= i < |delays| ==> delays[i] == Delay(i)
    ensures forall i, j :: 0 <= i < j < |delays| ==> delays[i] <= delays[j]
    ensures Sum(delays) <= 243_500
  {
    var failures := 0;
    delays := [];
    while true
      invariant failures <= MAX_ATTEMPTS
      invariant |delays| == if failures == 0 then 0 else failures - 1
      invariant FailFirst(connect, shutdown, failures)
      invariant forall i :: 0 <= i < |delays| ==> delays[i] == Delay(i)
      decreases MAX_ATTEMPTS - failures
    {
      if failures > 0 {
        var delay := Backoff(failures);
        delays := delays + [delay];
      }
      if shutdown(failures) {
        Summary(delays);
        return Ok(()), failures, delays;
      }
      r := connect(failures);
      if r.Ok? {
        Summary(delays);
        return r, failures + 1, delays;
      }
      failures := failures + 1;
      if failures > MAX_ATTEMPTS {
        Summary(delays);
        return r, failures, delays;
      }
    }
  }

  /** The wait after so many failures, in u64 arithmetic that does not overflow. */
  method Backoff(failures: nat) returns (delay: u64)
    requires 1 <= failures <= MAX_ATTEMPTS
    ensures delay == Delay(failures - 1)
  {
    Pow2Monotone(failures - 1, 9);
    assert Pow2(9) == 512 by { assert Pow2(6) == 64; }
    delay := INITIAL_DELAY_MS * Pow2(failures - 1);
    if MAX_DELAY_MS < delay {
      delay := MAX_DELAY_MS;
    }
  }

  lemma Summary(delays: seq<u64>)
    requires |delays| <= MAX_ATTEMPTS
    requires forall i :: 0 <= i < |delays| ==> delays[i] == Delay(i)
    ensures forall i, j :: 0 <= i < j < |delays| ==> delays[i] <= delays[j]
    ensures Sum(delays) <= 243_500
  {
    SumIsTotal(delays);
    TotalDelayBound(|delays|);
    forall i, j | 0 <= i < j < |delays| ensures delays[i] <= delays[j] {
      DelayMonotone(i, j);
    }
  }
}
