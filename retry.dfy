/** The fetch at the start of resourceAwsSsmParameterRead: GetParameter inside the SDK's
    `resource.Retry`, then one last-chance GetParameter when the retry window closed before any
    attempt finished.

    The SDK's retry runs its first attempt at once and repeats the attempt until it succeeds,
    fails for good, or the window (two minutes) closes. A failed-for-good attempt ends the retry
    with its own error; when the window closes after retryable failures, the retry ends with the
    last retryable error; when an attempt is still in flight once the window and its grace period
    have passed, the retry ends with a timeout error that records no last error. The wall clock is
    replaced here by `budget`: the number of attempts that complete inside the window. Budget 0
    stands for "no attempt completed"; the request of the attempt still in flight then, and its
    effect on the store, are not part of this model.

    The specification is stated on values: whether GetParameter is denied to the caller, the
    record filed under the name (if any), and for how many more fetches the store still hides it
    (`hidden`, the store's asynchronous-validation countdown). */
module Retry {
  import opened Wrappers
  import opened SsmStore
  import opened Errors
  import opened Util

  /** The outcome of a fetch: its result, how many GetParameter requests it sent, and the hiding
      countdown it leaves behind. */
  datatype Fetch = Fetch(result: Result<Parameter, Error>, gets: nat, hidden: nat)

  /** One GetParameter request. */
  function SingleFetch(denied: bool, found: Option<Parameter>, hidden: nat): Result<Parameter, StoreError> {
    if denied then Failure(AccessDenied)
    else if found.None? || hidden > 0 then Failure(ParameterNotFound)
    else Success(found.value)
  }

  /** The countdown after one GetParameter: a refused request or a missing record leaves it; a
      hidden record counts down by one. */
  function HiddenAfter(denied: bool, found: Option<Parameter>, hidden: nat): nat {
    if !denied && found.Some? && hidden > 0 then hidden - 1 else hidden
  }

  /** A store error as the engine sees it. */
  function Lift(r: Result<Parameter, StoreError>): Result<Parameter, Error> {
    if r.Success? then Success(r.value) else Failure(Aws(r.error))
  }

  /** The retried fetch, attempt by attempt. An attempt that misses is retried only when
      `retryable` holds (a new resource declared with the "aws:ec2:image" data type) and the miss
      is ParameterNotFound; it then records the "could not be validated" error as `last`. */
  function RetryFetch(denied: bool, found: Option<Parameter>, hidden: nat, retryable: bool,
                      name: string, budget: nat, last: Option<Error>): Fetch
    decreases budget
  {
    if budget == 0 then
      Fetch(if last.Some? then Failure(last.value) else Failure(Timeout(None)), 0, hidden)
    else
      var attempt := SingleFetch(denied, found, hidden);
      var countdown := HiddenAfter(denied, found, hidden);
      if attempt.Success? then Fetch(Success(attempt.value), 1, countdown)
      else if retryable && attempt.error == ParameterNotFound then
        var rest := RetryFetch(denied, found, countdown, retryable, name, budget - 1, Some(NotValidated(name)));
        Fetch(rest.result, rest.gets + 1, rest.hidden)
      else Fetch(Failure(Aws(attempt.error)), 1, countdown)
  }

  /** The fetch of Read: the retry from a fresh start, then one more GetParameter if it timed out
      without a last error. */
  function ReadFetch(denied: bool, found: Option<Parameter>, hidden: nat, retryable: bool,
                     name: string, budget: nat): Fetch
  {
    var tried := RetryFetch(denied, found, hidden, retryable, name, budget, None);
    if tried.result.Failure? && IsResourceTimeoutError(tried.result.error) then
      Fetch(Lift(SingleFetch(denied, found, tried.hidden)), tried.gets + 1,
            HiddenAfter(denied, found, tried.hidden))
    else tried
  }

  /** The record a store holds under `name`, if any. */
  function Found(params: map<string, Parameter>, name: string): Option<Parameter> {
    if name in params then Some(params[name]) else None
  }

  /** `n` GetParameter requests for `name`. */
  function Gets(name: string, n: nat): seq<Call> {
    seq(n, _ => GetCall(name))
  }

  /** The store's countdown map once the countdown of `name` went from `before` to `after`. */
  function PendingAfter(pending: map<string, nat>, name: string, before: nat, after: nat): map<string, nat> {
    if after == before then pending else pending[name := after]
  }

  /** The retry loop of Read against the store. */
  method FetchWithRetry(conn: ParameterStore, name: string, retryable: bool, budget: nat)
    returns (r: Result<Parameter, Error>)
    modifies conn`pending, conn`calls
    ensures var f := old(RetryFetch(GetParameterApi in conn.denied, Found(conn.params, name),
                                    conn.PendingPolls(name), retryable, name, budget, None));
      && r == f.result
      && conn.calls == old(conn.calls) + Gets(name, f.gets)
      && conn.pending == PendingAfter(old(conn.pending), name, old(conn.PendingPolls(name)), f.hidden)
  {
    ghost var denied := GetParameterApi in conn.denied;
    ghost var found := Found(conn.params, name);
    ghost var f := RetryFetch(denied, found, conn.PendingPolls(name), retryable, name, budget, None);
    var attempt := 0;
    var last: Option<Error> := None;
    while attempt < budget
      invariant attempt <= budget
      invariant attempt > 0 ==> last == Some(NotValidated(name))
      invariant attempt == 0 ==> last.None?
      invariant conn.calls == old(conn.calls) + Gets(name, attempt)
      invariant conn.pending == PendingAfter(old(conn.pending), name, old(conn.PendingPolls(name)), conn.PendingPolls(name))
      invariant conn.PendingPolls(name) <= old(conn.PendingPolls(name))
      invariant var rest := RetryFetch(denied, found, conn.PendingPolls(name), retryable, name, budget - attempt, last);
        rest.result == f.result && attempt + rest.gets == f.gets && rest.hidden == f.hidden
    {
      var resp := conn.GetParameter(name);
      if resp.Success? {
        return Success(resp.value);
      }
      if retryable && resp.error == ParameterNotFound {
        last := Some(NotValidated(name));
        attempt := attempt + 1;
      } else {
        return Failure(Aws(resp.error));
      }
    }
    if last.Some? {
      return Failure(last.value);
    }
    return Failure(Timeout(None));
  }

  /** The whole fetch of Read: the retry loop, then the last-chance request after a timeout. */
  method FetchForRead(conn: ParameterStore, name: string, retryable: bool, budget: nat)
    returns (r: Result<Parameter, Error>)
    modifies conn`pending, conn`calls
    ensures var f := old(ReadFetch(GetParameterApi in conn.denied, Found(conn.params, name),
                                   conn.PendingPolls(name), retryable, name, budget));
      && r == f.result
      && conn.calls == old(conn.calls) + Gets(name, f.gets)
      && conn.pending == PendingAfter(old(conn.pending), name, old(conn.PendingPolls(name)), f.hidden)
  {
    r := FetchWithRetry(conn, name, retryable, budget);
    if r.Failure? && IsResourceTimeoutError(r.error) {
      ghost var tried := conn.calls;
      var resp := conn.GetParameter(name);
      r := if resp.Success? then Success(resp.value) else Failure(Aws(resp.error));
      assert Gets(name, |tried| - |old(conn.calls)|) + [GetCall(name)] == Gets(name, |tried| - |old(conn.calls)| + 1);
    }
  }
}
