/** `retryUntil(fn, period)`: evaluate `fn` up to `period / pausePeriod` times,
    pausing between evaluations, and report whether it ever held. The pause
    itself (a timer) is not modelled; `fn(i)` is the result of the i-th
    evaluation. */
module PromiseHelpers {

  const DefaultPeriod: int := 4000
  const PausePeriod: int := 1

  method RetryUntil(fn: nat -> bool, period: int) returns (ok: bool, evaluations: nat)
    ensures evaluations <= (if period > 0 then period else 0)
    ensures ok <==> exists i: nat :: i < period && fn(i)
    ensures ok ==> evaluations > 0 && fn(evaluations - 1)
    ensures ok ==> forall i: nat :: i < evaluations - 1 ==> !fn(i)
    ensures !ok ==> forall i: nat :: i < evaluations ==> !fn(i)
    ensures !ok ==> evaluations == (if period > 0 then period else 0)
  {
    var count := period / PausePeriod;
    evaluations := 0;
    while count > 0
      invariant count + evaluations == period
      invariant period > 0 ==> count >= 0
      invariant evaluations <= (if period > 0 then period else 0)
      invariant forall i: nat :: i < evaluations ==> !fn(i)
    {
      var holds := fn(evaluations);
      evaluations := evaluations + 1;
      if holds {
        return true, evaluations;
      }
      count := count - 1;
    }
    return false, evaluations;
  }

  /** With its default period, a wait evaluates its predicate at most 4000 times. */
  method RetryUntilDefault(fn: nat -> bool) returns (ok: bool, evaluations: nat)
    ensures evaluations <= 4000
    ensures ok <==> exists i: nat :: i < 4000 && fn(i)
  {
    ok, evaluations := RetryUntil(fn, DefaultPeriod);
  }
}
