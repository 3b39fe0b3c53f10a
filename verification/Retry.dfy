/** Retrying with bounded exponential backoff. */
module Retry {
  import opened Prelude
  import Cancellation

  datatype Outcome<T, E> = Success(value: T) | Failure(error: E, cancellation: bool, retryable: bool)

  /**
   * What the world does in one turn of the loop: whether the token is cancelled at its head, how
   * the operation ends, the random draw of the jitter, and whether the delay is interrupted.
   */
  datatype Turn<T, E> = Turn(cancelledBefore: bool, outcome: Outcome<T, E>, draw: real, interrupted: bool)

  datatype Ending<T, E> = Returned(value: T) | Threw(error: E) | ThrewCancellation | ThrewUndefined

  /** What the observer is told. */
  datatype Attempt<E> = Attempt(attempt: int, maxRetries: int, delayMs: int, error: E)

  datatype Policy = Policy(maxRetries: int, initialDelayMs: real, maxDelayMs: real)

  function Pow2(n: nat): real { if n == 0 then 1.0 else 2.0 * Pow2(n - 1) }

  function MinR(a: real, b: real): real { if a <= b then a else b }

  function MaxR(a: real, b: real): real { if a <= b then b else a }

  function Round(x: real): int { (x + 0.5).Floor }

  function Base(p: Policy, attempt: nat): real { MinR(p.initialDelayMs * Pow2(attempt), p.maxDelayMs) }

  /** The base with its jitter; `draw` is the random number in [0, 1). */
  function Jittered(base: real, draw: real): real { base + base * 0.1 * (draw * 2.0 - 1.0) }

  /** The delay before the retry. */
  function Delay(p: Policy, attempt: nat, draw: real): int {
    Round(MaxR(0.0, Jittered(Base(p, attempt), draw)))
  }

  /** The turn is over without an end: the operation failed, may be retried, and the delay passed. */
  predicate GoesOn<T, E>(p: Policy, i: nat, t: Turn<T, E>) {
    && !t.cancelledBefore && t.outcome.Failure? && !t.outcome.cancellation && t.outcome.retryable
    && i < p.maxRetries && !t.interrupted
  }

  /** How a turn that does not go on ends the whole call. */
  function EndOf<T, E>(p: Policy, i: nat, t: Turn<T, E>): Ending<T, E>
    requires !GoesOn(p, i, t)
  {
    if t.cancelledBefore then ThrewCancellation
    else if t.outcome.Success? then Returned(t.outcome.value)
    else if t.outcome.cancellation || !t.outcome.retryable || i >= p.maxRetries then Threw(t.outcome.error)
    else ThrewCancellation
  }

  /** The observer hears of every turn that reaches its delay. */
  predicate Delays<T, E>(p: Policy, i: nat, t: Turn<T, E>) {
    !t.cancelledBefore && t.outcome.Failure? && !t.outcome.cancellation && t.outcome.retryable && i < p.maxRetries
  }

  /** Turn `k` is the first that does not go on. */
  ghost predicate IsLast<T, E>(p: Policy, script: nat -> Turn<T, E>, k: nat) {
    !GoesOn(p, k, script(k)) && forall i: nat | i < k :: GoesOn(p, i, script(i))
  }

  // ---- The loop, on a token ----------------------------------------------------------------------

  /**
   * What the operation does in one turn, the random draw of the jitter, and what else happens to
   * the token until the delay and during it; listeners from `first` on are nobody else's.
   */
  datatype Trial<T, E> = Trial(outcome: Outcome<T, E>, draw: real, during: seq<Cancellation.Event>, waiting: seq<Cancellation.Event>)

  predicate WasCalled(calls: seq<Cancellation.Call>, l: Cancellation.Listener) {
    exists c :: c in calls && c.listener == l
  }

  /** The token after a turn whose delay registered `l`. */
  function AfterDelay<T, E>(s: Cancellation.Signal, t: Trial<T, E>, l: Cancellation.Listener): Cancellation.Signal {
    Cancellation.Run(Cancellation.Next(Cancellation.Run(s, t.during), Cancellation.Register(l)), t.waiting)
  }

  /** The token at the head of turn `i`; the delay of turn `i` registers listener `first + i`. */
  function AtHead<T, E>(s: Cancellation.Signal, trials: nat -> Trial<T, E>, first: Cancellation.Listener, i: nat): Cancellation.Signal {
    if i == 0 then s else AfterDelay(AtHead(s, trials, first, i - 1), trials(i - 1), first + (i - 1))
  }

  function TurnAt<T, E>(s: Cancellation.Signal, trials: nat -> Trial<T, E>, first: Cancellation.Listener, i: nat): Turn<T, E> {
    var head := AtHead(s, trials, first, i);
    Turn(head.reason.Some?, trials(i).outcome, trials(i).draw,
         WasCalled(AfterDelay(head, trials(i), first + i).calls, first + i))
  }

  function Script<T, E>(s: Cancellation.Signal, trials: nat -> Trial<T, E>, first: Cancellation.Listener): nat -> Turn<T, E> {
    (i: nat) => TurnAt(s, trials, first, i)
  }

  /** The token after a last turn. */
  function AtEnd<T, E>(p: Policy, s: Cancellation.Signal, trials: nat -> Trial<T, E>, first: Cancellation.Listener, last: nat): Cancellation.Signal {
    var head := AtHead(s, trials, first, last);
    if head.reason.Some? then head
    else if Delays(p, last, TurnAt(s, trials, first, last)) then AfterDelay(head, trials(last), first + last)
    else Cancellation.Run(head, trials(last).during)
  }

  method Happen(source: Cancellation.CancellationSource, es: seq<Cancellation.Event>)
    modifies source
    ensures source.View() == Cancellation.Run(old(source.View()), es)
  {
    hide Cancellation.Next;
    for i := 0 to |es|
      invariant source.View() == Cancellation.Run(old(source.View()), es[..i])
    {
      assert es[..i + 1][..i] == es[..i];
      match es[i]
      case Register(l) => var _ := source.OnCancelled(l);
      case Unsubscribe(l) => source.RemoveListener(l);
      case Dispose => source.DisposeListeners();
      case Cancel(reason, drops) => source.CancelAll(reason, drops);
    }
    assert es[..|es|] == es;
  }

  method WithRetry<T, E>(p: Policy, source: Cancellation.CancellationSource, trials: nat -> Trial<T, E>, first: Cancellation.Listener)
    returns (end: Ending<T, E>, calls: nat, observed: seq<Attempt<E>>, last: nat)
    modifies source
    ensures p.maxRetries < 0 ==> end == ThrewUndefined && calls == 0 && observed == [] && source.View() == old(source.View())
    ensures p.maxRetries >= 0 ==>
      var script := Script(old(source.View()), trials, first);
      && last <= p.maxRetries && IsLast(p, script, last) && end == EndOf(p, last, script(last))
      && calls == last + (if script(last).cancelledBefore then 0 else 1)
      && |observed| == last + (if Delays(p, last, script(last)) then 1 else 0)
      && source.View() == AtEnd(p, old(source.View()), trials, first, last)
    ensures |observed| <= Max(0, p.maxRetries)
    ensures forall i | 0 <= i < |observed| ::
      && trials(i).outcome.Failure? && trials(i).outcome.retryable && !trials(i).outcome.cancellation
      && observed[i] == Attempt(i + 1, p.maxRetries, Delay(p, i, trials(i).draw), trials(i).outcome.error)
  {
    hide Cancellation.Run, Cancellation.Next, Delay, AtHead;
    calls, observed, last := 0, [], 0;
    var lastError: Option<E> := None;
    var attempt: nat := 0;
    ghost var start := source.View();
    ghost var script := Script(start, trials, first);
    StartsAt(start, trials, first);
    while attempt <= p.maxRetries
      invariant 0 <= attempt <= Max(0, p.maxRetries + 1)
      invariant calls == attempt && |observed| == Min(attempt, Max(0, p.maxRetries))
      invariant forall i: nat | i < Min(attempt, p.maxRetries) :: GoesOn(p, i, script(i))
      invariant forall i | 0 <= i < |observed| ::
        && trials(i).outcome.Failure? && trials(i).outcome.retryable && !trials(i).outcome.cancellation
        && observed[i] == Attempt(i + 1, p.maxRetries, Delay(p, i, trials(i).draw), trials(i).outcome.error)
      invariant attempt <= p.maxRetries || attempt == 0
      invariant source.View() == AtHead(start, trials, first, attempt)
    {
      var trial := trials(attempt);
      last := attempt;
      if source.cancelled {
        return ThrewCancellation, calls, observed, last;
      }
      Happen(source, trial.during);
      calls := calls + 1;
      if trial.outcome.Success? {
        return Returned(trial.outcome.value), calls, observed, last;
      }
      lastError := Some(trial.outcome.error);
      if trial.outcome.cancellation {
        return Threw(trial.outcome.error), calls, observed, last;
      }
      if !trial.outcome.retryable {
        return Threw(trial.outcome.error), calls, observed, last;
      }
      if attempt >= p.maxRetries {
        return Threw(lastError.value), calls, observed, last;
      }
      observed := observed + [Attempt(attempt + 1, p.maxRetries, Delay(p, attempt, trial.draw), trial.outcome.error)];
      var _ := source.OnCancelled(first + attempt);
      Happen(source, trial.waiting);
      if WasCalled(source.calls, first + attempt) {
        return ThrewCancellation, calls, observed, last;
      }
      GoesToNext(start, trials, first, attempt);
      attempt := attempt + 1;
    }
    end := ThrewUndefined;
  }

  lemma {:induction false} StartsAt<T, E>(s: Cancellation.Signal, trials: nat -> Trial<T, E>, first: Cancellation.Listener)
    ensures AtHead(s, trials, first, 0) == s
  {
  }

  lemma {:induction false} GoesToNext<T, E>(s: Cancellation.Signal, trials: nat -> Trial<T, E>, first: Cancellation.Listener, i: nat)
    ensures AtHead(s, trials, first, i + 1) == AfterDelay(AtHead(s, trials, first, i), trials(i), first + i)
  {
  }

  // ---- Consequences ----------------------------------------------------------------------------

  /** The first turn that does not go on is unique, and there is one no later than the retry limit. */
  lemma {:induction false} LastExists<T, E>(p: Policy, script: nat -> Turn<T, E>) returns (k: nat)
    requires p.maxRetries >= 0
    ensures k <= p.maxRetries && IsLast(p, script, k)
    ensures forall j: nat | IsLast(p, script, j) :: j == k
  {
    k := 0;
    while GoesOn(p, k, script(k))
      invariant k <= p.maxRetries && forall i: nat | i < k :: GoesOn(p, i, script(i))
      decreases p.maxRetries - k
    {
      k := k + 1;
    }
  }

  /** Turn `j` is reached: every turn before it goes on, and the token is not cancelled at its head. */
  ghost predicate Called<T, E>(p: Policy, script: nat -> Turn<T, E>, j: nat) {
    j <= p.maxRetries && !script(j).cancelledBefore && forall i: nat | i < j :: GoesOn(p, i, script(i))
  }

  /** A value is returned exactly when it is that of an operation that was called and succeeded. */
  lemma {:induction false} ReturnsIff<T, E>(p: Policy, script: nat -> Turn<T, E>, k: nat, v: T)
    requires p.maxRetries >= 0 && IsLast(p, script, k)
    ensures EndOf(p, k, script(k)) == Returned(v) <==> exists j: nat :: Called(p, script, j) && script(j).outcome == Success(v)
  {
    var only := LastExists(p, script);
    if j: nat :| Called(p, script, j) && script(j).outcome == Success(v) {
      assert IsLast(p, script, j);
    }
    if EndOf(p, k, script(k)) == Returned(v) {
      assert Called(p, script, k);
    }
  }

  /** The call failed with `e`, which is not to be retried, or was the last one allowed. */
  ghost predicate FailsFor<T, E>(p: Policy, j: nat, t: Turn<T, E>, e: E) {
    t.outcome.Failure? && t.outcome.error == e && (t.outcome.cancellation || !t.outcome.retryable || j == p.maxRetries)
  }

  /** An error is thrown exactly when it is the first that may not be retried, or the one of the last allowed call. */
  lemma {:induction false} ThrowsIff<T, E>(p: Policy, script: nat -> Turn<T, E>, k: nat, e: E)
    requires p.maxRetries >= 0 && IsLast(p, script, k)
    ensures EndOf(p, k, script(k)) == Threw(e) <==> exists j: nat :: Called(p, script, j) && FailsFor(p, j, script(j), e)
  {
    var only := LastExists(p, script);
    if j: nat :| Called(p, script, j) && FailsFor(p, j, script(j), e) {
      assert IsLast(p, script, j);
    }
    if EndOf(p, k, script(k)) == Threw(e) {
      assert Called(p, script, k);
    }
  }

  /**
   * The call ends as cancelled exactly when the token is cancelled at the head of a turn that is
   * reached, or a delay that is reached is interrupted.
   */
  lemma {:induction false} CancelsIff<T, E>(p: Policy, script: nat -> Turn<T, E>, k: nat)
    requires p.maxRetries >= 0 && IsLast(p, script, k)
    ensures EndOf(p, k, script(k)).ThrewCancellation? <==>
      exists j: nat :: j <= p.maxRetries && Reached(p, script, j) && IsCancelled(p, j, script(j))
  {
    var only := LastExists(p, script);
    if j: nat :| j <= p.maxRetries && Reached(p, script, j) && IsCancelled(p, j, script(j)) {
      assert IsLast(p, script, j);
    }
    if EndOf(p, k, script(k)).ThrewCancellation? {
      assert Reached(p, script, k);
    }
  }

  /** Cancelled at the head of the turn, or during the delay that follows an error which is retried. */
  ghost predicate IsCancelled<T, E>(p: Policy, j: nat, t: Turn<T, E>) {
    t.cancelledBefore
    || (t.outcome.Failure? && !t.outcome.cancellation && t.outcome.retryable && j < p.maxRetries && t.interrupted)
  }

  /** Every turn before `j` fails with an error that is retried, after a delay that is not interrupted. */
  ghost predicate Reached<T, E>(p: Policy, script: nat -> Turn<T, E>, j: nat) {
    forall i: nat | i < j ::
      && !script(i).cancelledBefore && script(i).outcome.Failure? && script(i).outcome.retryable
      && !script(i).outcome.cancellation && i < p.maxRetries && !script(i).interrupted
  }

  function Pos(x: real): real { MaxR(0.0, x) }

  lemma {:induction false} Scaled(a: real, b: real, base: real)
    requires base > 0.0
    ensures a * base < b * base <==> a < b
  {
    assert (b - a) * base == b * base - a * base;
    if a < b {
      assert (b - a) * base > 0.0;
    } else {
      assert (a - b) * base >= 0.0;
    }
  }

  lemma {:induction false} JitteredAt(base: real, q: real)
    ensures Jittered(base, 5.0 * q - 4.5) == q * base
  {
    assert (5.0 * q - 4.5) * 2.0 - 1.0 == 10.0 * (q - 1.0);
    assert base * 0.1 * (10.0 * (q - 1.0)) == base * (q - 1.0);
  }

  /** The jitter moves a positive base by at most a tenth, and never quite up to it. */
  lemma {:induction false} JitterBand(base: real, draw: real)
    requires 0.0 <= draw < 1.0
    ensures base > 0.0 ==> 0.9 * base <= Jittered(base, draw) < 1.1 * base
    ensures base <= 0.0 ==> Jittered(base, draw) <= 0.0
  {
    hide Jittered;
    var q := 0.2 * draw + 0.9;
    assert 5.0 * q - 4.5 == draw;
    JitteredAt(base, q);
    if base > 0.0 {
      Tenths(q, base);
    } else if base < 0.0 {
      Scaled(0.0, q, -base);
    }
  }

  lemma {:induction false} Tenths(q: real, base: real)
    requires base > 0.0 && 0.9 <= q < 1.1
    ensures 0.9 * base <= q * base < 1.1 * base
  {
    assert q * base < 1.1 * base by {
      Scaled(q, 1.1, base);
    }
    assert 0.9 * base <= q * base by {
      Scaled(q, 0.9, base);
    }
  }

  /** A delay is within a tenth of its base, up to rounding, and never negative. */
  lemma {:induction false} DelayInBand(p: Policy, attempt: nat, draw: real)
    requires 0.0 <= draw < 1.0
    ensures var d, base := Delay(p, attempt, draw), Pos(Base(p, attempt));
      d >= 0 && 0.9 * base - 0.5 <= d as real <= 1.1 * base + 0.5
  {
    hide Base, Jittered, Round;
    var base := Base(p, attempt);
    JitterBand(base, draw);
    RoundNear(MaxR(0.0, Jittered(base, draw)));
  }

  lemma {:induction false} RoundNear(x: real)
    requires x >= 0.0
    ensures Round(x) >= 0 && x - 0.5 <= Round(x) as real <= x + 0.5
  {
  }

  // ---- The delays themselves -------------------------------------------------------------------

  /** `x`, doubled `n` times. */
  function Redoubled(x: real, n: nat): real
    decreases n
  {
    if n == 0 then x else Redoubled(x + x, n - 1)
  }

  /** The delay without jitter: the initial one doubled once per attempt, up to the maximum, and not negative. */
  function Nominal(p: Policy, n: nat): real {
    var d := Redoubled(p.initialDelayMs, n);
    var capped := if d <= p.maxDelayMs then d else p.maxDelayMs;
    if capped >= 0.0 then capped else 0.0
  }

  lemma {:induction false} RedoubledIs(x: real, n: nat)
    ensures Redoubled(x, n) == x * Pow2(n)
    decreases n
  {
    if n > 0 {
      RedoubledIs(x + x, n - 1);
      Regroup(x, Pow2(n - 1));
    }
  }

  lemma {:induction false} Regroup(x: real, q: real)
    ensures (x + x) * q == x * (2.0 * q)
  {
  }

  lemma {:induction false} NominalIs(p: Policy, n: nat)
    ensures Nominal(p, n) == Pos(Base(p, n))
  {
    hide Redoubled, Pow2;
    RedoubledIs(p.initialDelayMs, n);
  }

  /** The draw moves the delay evenly from nine to eleven tenths of the nominal one, up to rounding. */
  lemma {:induction false} DelayFollowsDraw(p: Policy, n: nat, draw: real)
    requires 0.0 <= draw < 1.0
    ensures var x := (0.2 * draw + 0.9) * Nominal(p, n); x - 0.5 <= Delay(p, n, draw) as real <= x + 0.5
    ensures 0.9 * Nominal(p, n) - 0.5 <= Delay(p, n, draw) as real <= 1.1 * Nominal(p, n) + 0.5
    ensures Delay(p, n, draw) >= 0 && (Nominal(p, n) == 0.0 ==> Delay(p, n, draw) == 0)
  {
    hide Base, Jittered, Nominal, Round;
    var base, q := Base(p, n), 0.2 * draw + 0.9;
    NominalIs(p, n);
    JitterBand(base, draw);
    assert 5.0 * q - 4.5 == draw;
    JitteredAt(base, q);
    Share(q, base);
    RoundNear(MaxR(0.0, Jittered(base, draw)));
  }

  lemma {:induction false} Share(q: real, base: real)
    requires 0.9 <= q < 1.1
    ensures base <= 0.0 ==> q * Pos(base) == 0.0
    ensures base > 0.0 ==> q * Pos(base) == q * base && 0.9 * base <= q * base <= 1.1 * base
  {
    if base > 0.0 {
      Tenths(q, base);
    }
  }

  /** Half a second doubles up to ten, and the extreme draws take a tenth off or add half of one. */
  lemma {:induction false} DefaultDelays(maxRetries: int)
    ensures
      var p := Policy(maxRetries, 500.0, 10000.0);
      && Delay(p, 0, 0.5) == 500 && Delay(p, 1, 0.5) == 1000 && Delay(p, 2, 0.5) == 2000
      && Delay(p, 3, 0.5) == 4000 && Delay(p, 4, 0.5) == 8000 && Delay(p, 5, 0.5) == 10000
      && Delay(p, 2, 0.0) == 1800 && Delay(p, 2, 0.75) == 2100
  {
    assert Pow2(1) == 2.0 && Pow2(2) == 4.0 && Pow2(3) == 8.0 && Pow2(4) == 16.0 && Pow2(5) == 32.0;
  }

  /** What `n` delays add up to without jitter. */
  function NominalTotal(p: Policy, n: nat): real {
    if n == 0 then 0.0 else NominalTotal(p, n - 1) + Nominal(p, n - 1)
  }

  /** However the jitter falls, the delays add up to that within a tenth, and half a millisecond each. */
  lemma {:induction false} TotalNearNominal(p: Policy, draws: seq<real>)
    requires forall i | 0 <= i < |draws| :: 0.0 <= draws[i] < 1.0
    ensures
      var sum, slack := NominalTotal(p, |draws|), 0.5 * |draws| as real;
      0.9 * sum - slack <= Total(p, draws) as real <= 1.1 * sum + slack
  {
    if draws != [] {
      hide Delay, Nominal;
      var n := |draws| - 1;
      TotalNearNominal(p, draws[..n]);
      DelayFollowsDraw(p, n, draws[n]);
    }
  }

  function Total(p: Policy, draws: seq<real>): int {
    if draws == [] then 0 else Total(p, draws[..|draws| - 1]) + Delay(p, |draws| - 1, draws[|draws| - 1])
  }

  /** What `n` delays of the backoff add up to at most without jitter: the doubling sum, or `n` maximal delays. */
  function Ceiling(p: Policy, n: nat): real { MinR(Doubling(p.initialDelayMs, n), Flat(p.maxDelayMs, n)) }

  function Doubling(first: real, n: nat): real { Pos(first) * (Pow2(n) - 1.0) }

  function Doubled(first: real, n: nat): real { Pos(first) * Pow2(n) }

  function Flat(each: real, n: nat): real { n as real * Pos(each) }

  /** However the jitter falls, `n` delays add up to at most a tenth more than that, plus half a millisecond each. */
  lemma {:induction false} TotalDelayBound(p: Policy, draws: seq<real>)
    requires forall i | 0 <= i < |draws| :: 0.0 <= draws[i] < 1.0
    ensures 0 <= Total(p, draws) && Total(p, draws) as real <= 1.1 * Ceiling(p, |draws|) + 0.5 * |draws| as real
  {
    if draws == [] {
      assert Ceiling(p, 0) == 0.0;
    } else {
      hide *;
      var n := |draws| - 1;
      TotalDelayBound(p, draws[..n]);
      DelayInBand(p, n, draws[n]);
      BaseBound(p, n);
      LastDelay(p, draws);
      CeilingStep(p, n);
    }
  }

  lemma {:induction false} LastDelay(p: Policy, draws: seq<real>)
    requires draws != []
    ensures Total(p, draws) == Total(p, draws[..|draws| - 1]) + Delay(p, |draws| - 1, draws[|draws| - 1])
  {
  }

  lemma {:induction false} CeilingStep(p: Policy, n: nat)
    ensures Ceiling(p, n) + MinR(Doubled(p.initialDelayMs, n), Pos(p.maxDelayMs)) <= Ceiling(p, n + 1)
    ensures (n + 1) as real == n as real + 1.0
  {
    hide Pos, Doubled, Doubling, Flat, MinR, Pow2;
    DoublingStep(p.initialDelayMs, n);
    FlatStep(p.maxDelayMs, n);
    MinStep(Doubling(p.initialDelayMs, n), Doubled(p.initialDelayMs, n), Flat(p.maxDelayMs, n), Pos(p.maxDelayMs));
  }

  lemma {:induction false} DoublingStep(first: real, n: nat)
    ensures Doubling(first, n + 1) == Doubling(first, n) + Doubled(first, n)
  {
    hide Pos;
    var g, q := Pos(first), Pow2(n);
    assert Pow2(n + 1) - 1.0 == (q - 1.0) + q;
    assert g * ((q - 1.0) + q) == g * (q - 1.0) + g * q;
  }

  lemma {:induction false} FlatStep(each: real, n: nat)
    ensures Flat(each, n + 1) == Flat(each, n) + Pos(each)
  {
    hide Pos;
    assert (n + 1) as real == n as real + 1.0;
  }

  lemma {:induction false} MinStep(a: real, da: real, b: real, db: real)
    ensures MinR(a, b) + MinR(da, db) <= MinR(a + da, b + db)
  {
  }

  lemma {:induction false} BaseBound(p: Policy, n: nat)
    ensures Pos(Base(p, n)) <= MinR(Doubled(p.initialDelayMs, n), Pos(p.maxDelayMs))
  {
    Pow2Positive(n);
    assert p.initialDelayMs * Pow2(n) <= Pos(p.initialDelayMs) * Pow2(n);
  }

  lemma {:induction false} Pow2Positive(n: nat)
    ensures Pow2(n) >= 1.0
  {
    if n > 0 {
      Pow2Positive(n - 1);
    }
  }

  function Waited<E>(observed: seq<Attempt<E>>): int {
    if observed == [] then 0 else Waited(observed[..|observed| - 1]) + observed[|observed| - 1].delayMs
  }

  /** The delays a whole call announces stay within these bounds. */
  lemma {:induction false} WaitIsBounded<T, E>(p: Policy, script: nat -> Turn<T, E>, observed: seq<Attempt<E>>)
    requires forall i: nat :: 0.0 <= script(i).draw < 1.0
    requires forall i | 0 <= i < |observed| :: observed[i].delayMs == Delay(p, i, script(i).draw)
    ensures 0 <= Waited(observed)
    ensures Waited(observed) as real <= 1.1 * Ceiling(p, |observed|) + 0.5 * |observed| as real
    ensures
      var sum, slack := NominalTotal(p, |observed|), 0.5 * |observed| as real;
      0.9 * sum - slack <= Waited(observed) as real <= 1.1 * sum + slack
  {
    hide Ceiling, Delay, NominalTotal;
    var draws := seq(|observed|, i requires 0 <= i => script(i).draw);
    TotalDelayBound(p, draws);
    TotalNearNominal(p, draws);
    WaitedIsTotal(p, draws, observed);
  }

  lemma {:induction false} WaitedIsTotal<E>(p: Policy, draws: seq<real>, observed: seq<Attempt<E>>)
    requires |draws| == |observed| && forall i | 0 <= i < |observed| :: observed[i].delayMs == Delay(p, i, draws[i])
    ensures Waited(observed) == Total(p, draws)
  {
    hide Delay;
    if observed != [] {
      WaitedIsTotal(p, draws[..|draws| - 1], observed[..|draws| - 1]);
    }
  }

  lemma {:induction false} FloorBelow(y: real, n: int)
    ensures y.Floor <= n <==> y < n as real + 1.0
  {
  }

  lemma {:induction false} AtMostReal(n: int, cap: real)
    ensures n as real <= cap <==> n <= cap.Floor
  {
  }

  /** A rounded number is at most `cap` exactly when it was below the half after the last whole number up to it. */
  lemma {:induction false} RoundAtMost(x: real, cap: real)
    ensures Round(x) as real <= cap <==> x < cap.Floor as real + 0.5
  {
    var y := x + 0.5;
    AtMostReal(y.Floor, cap);
    FloorBelow(y, cap.Floor);
  }

  lemma {:induction false} Between(q: real, base: real, x: real)
    requires base > 0.0 && 0.9 * base <= x < 1.1 * base && q * base == x
    ensures 0.9 <= q < 1.1
  {
    if q < 0.9 {
      Scaled(q, 0.9, base);
    } else if q >= 1.1 {
      Scaled(q, 1.1, base);
    }
  }

  lemma {:induction false} Ratio(x: real, base: real) returns (q: real)
    requires base > 0.0 && 0.9 * base <= x < 1.1 * base
    ensures 0.9 <= q < 1.1 && q * base == x
  {
    q := x / base;
    assert q * base == x;
    Between(q, base, x);
  }

  /** A draw that takes the delay over a limit it can be taken over. */
  lemma {:induction false} LateDraw(base: real, limit: real) returns (draw: real)
    requires limit < 0.0 || 1.1 * base > limit
    ensures 0.0 <= draw < 1.0 && MaxR(0.0, Jittered(base, draw)) >= limit
  {
    hide Jittered;
    draw := 0.0;
    if base > 0.0 && 1.1 * base > limit {
      var q := Ratio(MaxR(0.9 * base, limit), base);
      JitteredAt(base, q);
      draw := 5.0 * q - 4.5;
    }
  }

  /**
   * The stated maximum is one for every jitter exactly when it is not negative and the base,
   * with a tenth on top, still rounds to at most it: the jitter comes after the cap.
   */
  lemma {:induction false} DelayWithinMaximumIff(p: Policy, attempt: nat)
    ensures (forall draw: real | 0.0 <= draw < 1.0 :: Delay(p, attempt, draw) as real <= p.maxDelayMs) <==>
      p.maxDelayMs >= 0.0 && 1.1 * Base(p, attempt) <= p.maxDelayMs.Floor as real + 0.5
  {
    hide Round, Jittered, Base;
    var base, cap := Base(p, attempt), p.maxDelayMs;
    var limit := cap.Floor as real + 0.5;
    if cap >= 0.0 && 1.1 * base <= limit {
      forall draw: real | 0.0 <= draw < 1.0 ensures Delay(p, attempt, draw) as real <= cap {
        JitterBand(base, draw);
        RoundAtMost(MaxR(0.0, Jittered(base, draw)), cap);
      }
    } else {
      NegativeLimit(cap);
      BaseWithinMaximum(p, attempt);
      var draw := LateDraw(base, limit);
      RoundAtMost(MaxR(0.0, Jittered(base, draw)), cap);
      assert Delay(p, attempt, draw) as real > cap;
    }
  }

  lemma {:induction false} NegativeLimit(cap: real)
    ensures cap < 0.0 ==> cap.Floor as real + 0.5 < 0.0
    ensures cap >= 0.0 ==> cap.Floor >= 0
  {
  }

  lemma {:induction false} BaseWithinMaximum(p: Policy, attempt: nat)
    ensures Base(p, attempt) <= p.maxDelayMs
  {
  }

  /** One draw that does exceed it. */
  lemma {:induction false} DelayMayExceedMaximum(p: Policy)
    requires p.initialDelayMs >= p.maxDelayMs > 20.0
    ensures Delay(p, 0, 0.75) as real > p.maxDelayMs
  {
    assert Base(p, 0) == p.maxDelayMs;
  }
}
