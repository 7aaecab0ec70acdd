/**
 * The fixed-delay retry policy that `get_album` and `send_message` both
 * follow, stated once as specification functions and lemmas.
 *
 * The remote side is a total function `net` from the attempt number
 * (0 for the first request, 1 for the first retry, ...) to what that
 * attempt yields. Each loop asks `net` once per attempt.
 */
module Retry {

  /** Rust's `u8`, the type of `retry_limit` and of the `retry` counter. */
  newtype u8 = x: int | 0 <= x < 0x100

  /** Rust's `u64`, the type of `sleep_secs`. */
  newtype u64 = x: int | 0 <= x < 0x1_0000_0000_0000_0000

  /** What `reqwest` surfaces as an error. */
  datatype HttpError =
    | Transport(reason: string)  // `send()` failed: connection refused, timeout, ...
    | Status(code: nat)          // `error_for_status()` rejected the response
    | Decode(reason: string)     // `json()` could not read the body

  /** What one attempt yields: a transport failure, an error status, or a response. */
  datatype Attempt<+P> =
    | TransportErr(reason: string)
    | StatusErr(code: nat)
    | Ok(payload: P)

  /** What a loop returns: the success value or the error it gives up with. */
  datatype Result<+T> = Success(value: T) | Failure(error: HttpError)

  /**
   * The two console lines printed before each sleep ("Could not ...: e" and
   * "Waiting s seconds and retrying... (Retry k/N)"), as one record.
   */
  datatype Diagnostic = Waiting(error: HttpError, secs: nat, retry: nat, limit: nat)

  /** The diagnostic printed before retry number `retry` after the status error `code`. */
  function Note(code: nat, secs: u64, retry: nat, limit: u8): Diagnostic
  {
    Waiting(Status(code), secs as nat, retry, limit as nat)
  }

  /**
   * The attempt at which a loop that has already retried `from` times stops:
   * the first attempt that is not a status error, or attempt `limit` when the
   * limit is reached first.
   */
  function FirstStop<P>(net: nat -> Attempt<P>, limit: nat, from: nat): (k: nat)
    requires from <= limit
    ensures from <= k <= limit
    decreases limit - from
  {
    if from == limit || !net(from).StatusErr? then from else FirstStop(net, limit, from + 1)
  }

  /** The number of retries (and so of sleeps) a loop with limit `limit` performs against `net`. */
  function Retries<P>(net: nat -> Attempt<P>, limit: nat): (k: nat)
    ensures k <= limit
  {
    FirstStop(net, limit, 0)
  }

  /** What the loop returns once it stops at attempt `a` (for `send_message`; `get_album` reads the body further). */
  function Settle<P>(a: Attempt<P>): (r: Result<P>)
    ensures r.Success? <==> a.Ok?
    ensures r.Success? ==> r.value == a.payload
    ensures r.Failure? ==> !r.error.Decode? && (r.error.Status? <==> a.StatusErr?)
    ensures a.StatusErr? ==> r.error.code == a.code
  {
    match a
    case TransportErr(reason) => Failure(Transport(reason))
    case StatusErr(code) => Failure(Status(code))
    case Ok(payload) => Success(payload)
  }

  /** Every attempt before the stopping one failed with a status error. */
  lemma {:induction false} FirstStopSkipsStatusErrors<P>(net: nat -> Attempt<P>, limit: nat, from: nat, j: nat)
    requires from <= limit && from <= j < FirstStop(net, limit, from)
    ensures net(j).StatusErr?
    decreases limit - from
  {
    if j > from {
      FirstStopSkipsStatusErrors(net, limit, from + 1, j);
    }
  }

  /** Before the limit, the loop stops only at an attempt that is not a status error. */
  lemma {:induction false} FirstStopHalts<P>(net: nat -> Attempt<P>, limit: nat, from: nat)
    requires from <= limit
    ensures FirstStop(net, limit, from) < limit ==> !net(FirstStop(net, limit, from)).StatusErr?
    decreases limit - from
  {
    if from < limit && net(from).StatusErr? {
      FirstStopHalts(net, limit, from + 1);
    }
  }

  /** Any `k` that meets the stopping rule is the stopping attempt. */
  lemma {:induction false} FirstStopIsLeast<P>(net: nat -> Attempt<P>, limit: nat, from: nat, k: nat)
    requires from <= k <= limit
    requires forall j :: from <= j < k ==> net(j).StatusErr?
    requires k < limit ==> !net(k).StatusErr?
    ensures FirstStop(net, limit, from) == k
    decreases k - from
  {
    if from < k {
      FirstStopIsLeast(net, limit, from + 1, k);
    }
  }

  /**
   * `Retries` is exactly the stopping rule of the loop: all attempts before it
   * were status errors, and unless the limit was reached the attempt it stops
   * at is not one.
   */
  lemma RetriesStopRule<P>(net: nat -> Attempt<P>, limit: nat)
    ensures forall j :: 0 <= j < Retries(net, limit) ==> net(j).StatusErr?
    ensures Retries(net, limit) < limit ==> !net(Retries(net, limit)).StatusErr?
  {
    forall j | 0 <= j < Retries(net, limit) ensures net(j).StatusErr? {
      FirstStopSkipsStatusErrors(net, limit, 0, j);
    }
    FirstStopHalts(net, limit, 0);
  }

  /** The converse: a retry count that meets the stopping rule is `Retries`. */
  lemma RetriesUnique<P>(net: nat -> Attempt<P>, limit: nat, k: nat)
    requires k <= limit
    requires forall j :: 0 <= j < k ==> net(j).StatusErr?
    requires k < limit ==> !net(k).StatusErr?
    ensures Retries(net, limit) == k
  {
    FirstStopIsLeast(net, limit, 0, k);
  }

  /**
   * When every attempt fails with an error status, the loop retries exactly
   * `limit` times (so it makes `limit + 1` attempts) and returns the last status error.
   */
  lemma ExhaustsOnStatusErrors<P>(net: nat -> Attempt<P>, limit: nat)
    requires forall i :: 0 <= i <= limit ==> net(i).StatusErr?
    ensures Retries(net, limit) == limit
    ensures Settle(net(limit)) == Failure(Status(net(limit).code))
  {
    RetriesUnique(net, limit, limit);
  }

  /**
   * When the first `k` attempts fail with an error status and attempt `k`
   * succeeds, with `k <= limit`, the loop retries exactly `k` times and returns the success.
   */
  lemma RecoversAfterStatusErrors<P>(net: nat -> Attempt<P>, limit: nat, k: nat)
    requires k <= limit
    requires forall i :: 0 <= i < k ==> net(i).StatusErr?
    requires net(k).Ok?
    ensures Retries(net, limit) == k
    ensures Settle(net(k)) == Success(net(k).payload)
  {
    RetriesUnique(net, limit, k);
  }

  /**
   * A transport failure ends the loop at once, whatever retries remain: the
   * loop stops at that attempt and returns the transport error.
   */
  lemma TransportErrorEscapes<P>(net: nat -> Attempt<P>, limit: nat, k: nat)
    requires k <= limit
    requires forall i :: 0 <= i < k ==> net(i).StatusErr?
    requires net(k).TransportErr?
    ensures Retries(net, limit) == k
    ensures Settle(net(k)) == Failure(Transport(net(k).reason))
  {
    RetriesUnique(net, limit, k);
  }
}
