/**
 Image pulls with exponential backoff (computePullBackoff and dockerPullWithRetry in
 cli/cmd/start.go).  Durations are nanoseconds in a 64-bit integer: that no operation below
 leaves the type's range is part of what is proved.
 */
module PullRetry {

  newtype Int64 = x: int | -0x8000_0000_0000_0000 <= x < 0x8000_0000_0000_0000

  /** Five minutes. */
  const MAX_PULL_BACKOFF: Int64 := 300_000_000_000

  function Pow2(n: nat): (p: nat)
    ensures p >= 1
  {
    if n == 0 then 1 else 2 * Pow2(n - 1)
  }

  function Min(a: int, b: int): int { if a <= b then a else b }

  function Max(a: int, b: int): int { if a >= b then a else b }

  /** The delay after failed attempt number `attempt`, as the documentation gives it. */
  function Backoff(base: int, attempt: int): int {
    if base <= 0 then MAX_PULL_BACKOFF as int
    else Min(base * Pow2(Max(attempt - 1, 0)), MAX_PULL_BACKOFF as int)
  }

  lemma {:induction false} Pow2Monotone(m: nat, n: nat)
    requires m <= n
    ensures Pow2(m) <= Pow2(n)
  {
    if m < n {
      Pow2Monotone(m, n - 1);
    }
  }

  lemma ScaledMonotone(base: nat, m: nat, n: nat)
    requires m <= n
    ensures base * Pow2(m) <= base * Pow2(n)
  {
    Pow2Monotone(m, n);
  }

  /** The delays never shrink and never exceed the cap. */
  lemma BackoffMonotone(base: int, attempt: int, later: int)
    requires attempt <= later
    ensures Backoff(base, attempt) <= Backoff(base, later) <= MAX_PULL_BACKOFF as int
  {
    if base > 0 {
      ScaledMonotone(base, Max(attempt - 1, 0), Max(later - 1, 0));
    }
  }

  /** The doubling loop, which stops before it could overflow.  The one attempt number whose
      predecessor leaves the type is excluded. */
  method ComputePullBackoff(baseDelay: Int64, attempt: Int64) returns (d: Int64)
    requires attempt > -0x8000_0000_0000_0000
    ensures d as int == Backoff(baseDelay as int, attempt as int)
  {
    if baseDelay <= 0 {
      return MAX_PULL_BACKOFF;
    }
    var shift: Int64 := if attempt - 1 > 0 then attempt - 1 else 0;
    d := baseDelay;
    var i: Int64 := 0;
    while i < shift
      invariant 0 <= i <= shift
      invariant d > 0 && d as int == baseDelay as int * Pow2(i as nat)
    {
      if d > MAX_PULL_BACKOFF / 2 {
        ScaledMonotone(baseDelay as nat, i as nat + 1, shift as nat);
        assert baseDelay as int * Pow2(i as nat + 1) == 2 * (d as int);
        return MAX_PULL_BACKOFF;
      }
      assert baseDelay as int * Pow2(i as nat + 1) == 2 * (d as int);
      d := d * 2;
      i := i + 1;
    }
    if d > MAX_PULL_BACKOFF {
      return MAX_PULL_BACKOFF;
    }
  }

  // ---------------------------------------------------------------- the retry loop

  datatype Outcome = Nil | PullError | ContextError

  /** The delays scheduled after the first `n` failed attempts. */
  function TotalBackoff(base: int, n: nat): int {
    if n == 0 then 0 else TotalBackoff(base, n - 1) + Backoff(base, n)
  }

  lemma {:induction false} TotalBackoffBound(base: int, n: nat)
    ensures TotalBackoff(base, n) <= n * MAX_PULL_BACKOFF as int
  {
    if n > 0 {
      TotalBackoffBound(base, n - 1);
      BackoffMonotone(base, n, n);
    }
  }

  /** What the outside does at attempt `k`: the pull works, the context is done after it, or during the wait. */
  datatype World = World(works: nat -> bool, cancelled: nat -> bool, interrupted: nat -> bool)
  {
    /** Attempt `k` is not the last: it fails and nothing stops the loop. */
    predicate GoesOn(k: nat) { !works(k) && !cancelled(k) && !interrupted(k) }
  }

  /** With at least one attempt allowed, the pulls are those up to the first that works or is stopped, and all
      that are allowed if there is none; nil is returned exactly when the last one worked; and the
      delays are those between them.  With none allowed it returns nil without having pulled. */
  method DockerPullWithRetry(attempts: Int64, baseDelay: Int64, world: World)
    returns (err: Outcome, pulls: nat, waits: nat, scheduled: int)
    ensures attempts >= 1 ==> 1 <= pulls <= attempts as int && (err == Nil <==> world.works(pulls))
    ensures forall k :: 1 <= k < pulls ==> world.GoesOn(k)
    ensures attempts >= 1 && pulls < attempts as int ==> !world.GoesOn(pulls)
    ensures attempts >= 1 && (forall k :: 1 <= k <= attempts as int ==> world.GoesOn(k)) ==>
              pulls == attempts as int && err == PullError
    ensures err == ContextError ==> world.interrupted(pulls) && !world.works(pulls) && !world.cancelled(pulls)
    ensures attempts <= 0 ==> err == Nil && pulls == 0
    ensures waits == if err == ContextError || pulls == 0 then pulls else pulls - 1
    ensures scheduled == TotalBackoff(baseDelay as int, waits)
    ensures attempts >= 1 ==> scheduled <= (attempts as int - 1) * MAX_PULL_BACKOFF as int
  {
    var lastErr := Nil;
    pulls, waits, scheduled := 0, 0, 0;
    var attempt: Int64 := 1;
    while attempt <= attempts
      invariant 1 <= attempt && (attempts >= 1 ==> attempt <= attempts)
      invariant pulls == waits == attempt as int - 1
      invariant scheduled == TotalBackoff(baseDelay as int, waits)
      invariant forall k :: 1 <= k <= pulls ==> world.GoesOn(k)
      invariant lastErr == (if pulls > 0 then PullError else Nil)
      invariant attempts <= 0 ==> attempt == 1
      decreases attempts as int - attempt as int
    {
      pulls := pulls + 1;
      if world.works(pulls) {
        assert !world.GoesOn(pulls);
        TotalBackoffBound(baseDelay as int, waits);
        return Nil, pulls, waits, scheduled;
      }
      lastErr := PullError;
      if attempt == attempts || world.cancelled(pulls) {
        break;
      }
      var backoff := ComputePullBackoff(baseDelay, attempt);
      waits := waits + 1;
      scheduled := scheduled + backoff as int;
      if world.interrupted(pulls) {
        assert !world.GoesOn(pulls);
        TotalBackoffBound(baseDelay as int, waits);
        return ContextError, pulls, waits, scheduled;
      }
      attempt := attempt + 1;
    }
    TotalBackoffBound(baseDelay as int, waits);
    err := lastErr;
  }
}
