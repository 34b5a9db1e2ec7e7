/** What the fetch of Read promises, derived from the attempt-by-attempt specification: when it
    retries, when it gives up, when the last-chance request is sent, and that what it returns is
    the stored record. */
module RetryLaws {
  import opened Wrappers
  import opened SsmStore
  import opened Errors
  import opened Util
  import opened Retry

  /** The retry ends in a timeout without a last error exactly when no attempt completed. */
  lemma {:induction false} TimeoutIffNoAttempt(denied: bool, found: Option<Parameter>, hidden: nat, retryable: bool,
                                               name: string, budget: nat, last: Option<Error>)
    requires last.None? || last == Some(NotValidated(name))
    ensures var r := RetryFetch(denied, found, hidden, retryable, name, budget, last).result;
      r.Failure? && IsResourceTimeoutError(r.error) <==> budget == 0 && last.None?
    decreases budget
  {
    if budget > 0 {
      var attempt := SingleFetch(denied, found, hidden);
      if !attempt.Success? && retryable && attempt.error == ParameterNotFound {
        TimeoutIffNoAttempt(denied, found, HiddenAfter(denied, found, hidden), retryable, name, budget - 1,
                            Some(NotValidated(name)));
      }
    }
  }

  /** So the last-chance request is sent exactly when no attempt completed (budget zero), and then
      the fetch is that one request (the dropped in-flight attempt aside). */
  lemma LastChanceOnlyWithoutBudget(denied: bool, found: Option<Parameter>, hidden: nat, retryable: bool,
                                    name: string, budget: nat)
    ensures var f := ReadFetch(denied, found, hidden, retryable, name, budget);
      budget == 0 ==> f == Fetch(Lift(SingleFetch(denied, found, hidden)), 1, HiddenAfter(denied, found, hidden))
    ensures budget > 0 ==>
      ReadFetch(denied, found, hidden, retryable, name, budget) == RetryFetch(denied, found, hidden, retryable, name, budget, None)
  {
    TimeoutIffNoAttempt(denied, found, hidden, retryable, name, budget, None);
  }

  /** Without the retry condition a fetch is a single request, whatever the budget: every error
      stops the loop. */
  lemma NotRetryableIsSingleFetch(denied: bool, found: Option<Parameter>, hidden: nat, name: string, budget: nat)
    ensures ReadFetch(denied, found, hidden, false, name, budget)
         == Fetch(Lift(SingleFetch(denied, found, hidden)), 1, HiddenAfter(denied, found, hidden))
  {
    LastChanceOnlyWithoutBudget(denied, found, hidden, false, name, budget);
  }

  /** A fetch that succeeds returns the record filed under the name. */
  lemma {:induction false} RetrySucceedsOnlyWithStored(denied: bool, found: Option<Parameter>, hidden: nat, retryable: bool,
                                                       name: string, budget: nat, last: Option<Error>)
    ensures var r := RetryFetch(denied, found, hidden, retryable, name, budget, last).result;
      r.Success? ==> !denied && found == Some(r.value)
    decreases budget
  {
    if budget > 0 {
      var attempt := SingleFetch(denied, found, hidden);
      if !attempt.Success? && retryable && attempt.error == ParameterNotFound {
        RetrySucceedsOnlyWithStored(denied, found, HiddenAfter(denied, found, hidden), retryable, name,
                                    budget - 1, Some(NotValidated(name)));
      }
    }
  }

  lemma FetchSucceedsOnlyWithStored(denied: bool, found: Option<Parameter>, hidden: nat, retryable: bool,
                                    name: string, budget: nat)
    ensures var r := ReadFetch(denied, found, hidden, retryable, name, budget).result;
      r.Success? ==> !denied && found == Some(r.value)
  {
    RetrySucceedsOnlyWithStored(denied, found, hidden, retryable, name, budget, None);
  }

  /** A new "aws:ec2:image" parameter that the store hides for fewer fetches than the budget
      allows is found, after exactly `hidden` misses. */
  lemma {:induction false} EventuallyVisible(found: Parameter, hidden: nat, name: string, budget: nat, last: Option<Error>)
    requires hidden < budget
    ensures RetryFetch(false, Some(found), hidden, true, name, budget, last) == Fetch(Success(found), hidden + 1, 0)
    decreases hidden
  {
    if hidden > 0 {
      EventuallyVisible(found, hidden - 1, name, budget - 1, Some(NotValidated(name)));
    }
  }

  /** When the store hides it for the whole budget, the retry uses every attempt and ends with
      the "could not be validated" error. */
  lemma {:induction false} ValidationOutlastsBudget(found: Parameter, hidden: nat, name: string, budget: nat, last: Option<Error>)
    requires 0 < budget <= hidden
    ensures RetryFetch(false, Some(found), hidden, true, name, budget, last)
         == Fetch(Failure(NotValidated(name)), budget, hidden - budget)
    decreases budget
  {
    if budget > 1 {
      ValidationOutlastsBudget(found, hidden - 1, name, budget - 1, Some(NotValidated(name)));
    }
  }

  /** A missing parameter of a new "aws:ec2:image" resource is retried until the budget runs
      out; the error Read then reports does not carry ParameterNotFound, so it is not mistaken
      for a parameter deleted outside the engine. */
  lemma {:induction false} MissingRetriedUntilBudget(hidden: nat, name: string, budget: nat, last: Option<Error>)
    requires budget > 0
    ensures var f := RetryFetch(false, None, hidden, true, name, budget, last);
      f == Fetch(Failure(NotValidated(name)), budget, hidden) && !IsAwsErr(f.result.error, ParameterNotFound)
    decreases budget
  {
    if budget > 1 {
      MissingRetriedUntilBudget(hidden, name, budget - 1, Some(NotValidated(name)));
    }
  }

  /** A parameter that vanished from under an existing resource ends the fetch with
      ParameterNotFound, the error on which Read drops the resource from state. */
  lemma VanishedIsNotFound(hidden: nat, name: string, budget: nat)
    ensures var r := ReadFetch(false, None, hidden, false, name, budget).result;
      r.Failure? && IsAwsErr(r.error, ParameterNotFound)
  {
    NotRetryableIsSingleFetch(false, None, hidden, name, budget);
  }

  /** The retry sends no more requests than the attempts that complete in the window. */
  lemma {:induction false} RetryStaysInBudget(denied: bool, found: Option<Parameter>, hidden: nat, retryable: bool,
                                              name: string, budget: nat, last: Option<Error>)
    ensures RetryFetch(denied, found, hidden, retryable, name, budget, last).gets <= budget
    decreases budget
  {
    if budget > 0 {
      RetryStaysInBudget(denied, found, HiddenAfter(denied, found, hidden), retryable, name, budget - 1,
                         Some(NotValidated(name)));
    }
  }

  /** The fetch of Read sends at least one request, and no more than the attempts that complete
      in the window plus the last-chance one. */
  lemma FetchStaysInBudget(denied: bool, found: Option<Parameter>, hidden: nat, retryable: bool,
                           name: string, budget: nat)
    ensures 1 <= ReadFetch(denied, found, hidden, retryable, name, budget).gets <= budget + 1
  {
    RetryStaysInBudget(denied, found, hidden, retryable, name, budget, None);
    if budget > 0 {
      LastChanceOnlyWithoutBudget(denied, found, hidden, retryable, name, budget);
      assert RetryFetch(denied, found, hidden, retryable, name, budget, None).gets >= 1;
    }
  }
}
