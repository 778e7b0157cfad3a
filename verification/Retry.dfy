/** Exponential backoff with jitter. Durations are in nanoseconds, factors are reals. */
module Retry {
  import opened Text

  const MIN_INT := -MAX_INT - 1

  datatype Config = Config(maxAttempts: int, baseDelay: int, maxDelay: int, jitter: real)

  /** One turn of the loop as the world plays it: whether the call succeeds, whether the context is done
      when the call starts, when it has returned and when the wait ends, which branch the wait takes, the
      random number, and what the platform makes of a duration that does not fit in 64 bits
      or is no number. */
  datatype Turn = Turn(ok: bool, doneBefore: bool, doneAfter: bool, doneInWait: bool, timerWins: bool, random: real,
                       misfit: int)

  datatype Outcome = Nil | LastError | ContextError | StillRunning

  /** A context that is done stays done, and the wait can end by it only if it is done. */
  predicate Consistent(turns: seq<Turn>) {
    && (forall i :: 0 <= i < |turns| ==>
          && (turns[i].doneBefore ==> turns[i].doneAfter)
          && (turns[i].doneAfter ==> turns[i].doneInWait)
          && (!turns[i].timerWins ==> turns[i].doneInWait)
          && 0.0 <= turns[i].random < 1.0
          && MIN_INT <= turns[i].misfit <= MAX_INT)
    && (forall i :: 0 <= i < |turns| - 1 ==> turns[i].doneInWait ==> turns[i + 1].doneBefore)
  }

  predicate Sensible(cfg: Config) {
    0 <= cfg.baseDelay <= cfg.maxDelay <= MAX_INT && 0.0 <= cfg.jitter <= 1.0
  }

  function Power2(k: nat): nat {
    if k == 0 then 1 else 2 * Power2(k - 1)
  }

  predicate Fits(x: int) {
    MIN_INT <= x <= MAX_INT
  }

  /** The largest power of two that a float holds; the next one is infinite, and zero times infinity is no number. */
  const MAX_EXPONENT := 1023

  /** The base doubled `k` times is a number and fits in 64 bits. */
  predicate DoublesTo64(base: int, k: nat) {
    k <= MAX_EXPONENT && Fits(base * Power2(k))
  }

  /** The delay after attempt `k` before jitter, doubled from the base and capped. */
  function Backoff(cfg: Config, k: nat, misfit: int): int {
    var delay := if DoublesTo64(cfg.baseDelay, k) then cfg.baseDelay * Power2(k) else misfit;
    if delay > cfg.maxDelay then cfg.maxDelay else delay
  }

  /** Conversion of a float to an integer, towards zero. */
  function Truncate(x: real): int {
    if x >= 0.0 then x.Floor else -(-x).Floor
  }

  /** A random number spread over minus one to one. */
  function Swing(random: real): real {
    2.0 * random - 1.0
  }

  function Scale(a: real, b: real): real {
    a * b
  }

  /** The share of a delay that jitter adds or takes away. */
  function JitterOf(delay: int, jitter: real, swing: real): int {
    Truncate(Scale(Scale(delay as real, jitter), swing))
  }

  /** The sum of two 64-bit integers, wrapping around. */
  function Add64(a: int, b: int): (r: int)
    ensures Fits(a + b) ==> r == a + b
    ensures Fits(a) && Fits(b) ==> Fits(r)
  {
    var sum := a + b;
    if sum > MAX_INT then sum - 0x1_0000_0000_0000_0000
    else if sum < MIN_INT then sum + 0x1_0000_0000_0000_0000
    else sum
  }

  function Jittered(cfg: Config, delay: int, random: real, misfit: int): int {
    if cfg.jitter > 0.0 then
      var share := JitterOf(delay, cfg.jitter, Swing(random));
      var d := Add64(delay, if Fits(share) then share else misfit);
      if d < 0 then cfg.baseDelay else d
    else delay
  }

  /** The delay of the wait after attempt `k`. */
  function Delay(cfg: Config, k: nat, turn: Turn): int {
    Jittered(cfg, Backoff(cfg, k, turn.misfit), turn.random, turn.misfit)
  }

  /** How long the timer of a wait runs: none at all for a negative delay. */
  function Waiting(d: int): nat {
    if d < 0 then 0 else d
  }

  function Total(waits: seq<int>): nat {
    if waits == [] then 0 else Total(waits[..|waits| - 1]) + Waiting(waits[|waits| - 1])
  }

  /** The last delay before jitter that a loop with a limit computes is a number and fits in 64 bits before it is
      capped. */
  predicate LastDelayFits(cfg: Config) {
    cfg.maxAttempts >= 2 ==> DoublesTo64(cfg.baseDelay, cfg.maxAttempts - 2)
  }

  /** The waits of the first turns, one after each failed attempt. */
  predicate WaitsAre(cfg: Config, turns: seq<Turn>, waits: seq<int>) {
    |waits| <= |turns| && forall k :: 0 <= k < |waits| ==> waits[k] == Delay(cfg, k, turns[k])
  }

  /** The loop goes on after this turn: the call failed, the context is not done, more attempts are allowed, and the
      wait for the next one ran to its end. */
  predicate GoesOn(cfg: Config, turns: seq<Turn>, i: nat)
    requires i < |turns|
  {
    && !turns[i].ok && !turns[i].doneAfter && turns[i].timerWins
    && (cfg.maxAttempts == 0 || i + 1 < cfg.maxAttempts)
  }

  /** What the loop promises. Every call but the last was one to go on after, so there are no more calls than the
      limit allows, none starts after the context is done, and a wait comes between any two. The last one decides: nil
      exactly if it succeeded, the context's error exactly if the context was done when it had failed or ended the
      wait, the last error exactly if it failed as the last that the limit allows. */
  predicate Promised(cfg: Config, turns: seq<Turn>, out: Outcome, calls: nat, waits: seq<int>) {
    if cfg.maxAttempts < 0 then out == Nil && calls == 0 && waits == []
    else
      && calls <= |turns| && WaitsAre(cfg, turns, waits)
      && (forall i :: 0 <= i < calls - 1 ==> GoesOn(cfg, turns, i) && !turns[i].doneBefore)
      && if calls == 0 then out == StillRunning && turns == [] && waits == []
         else
           var last := turns[calls - 1];
           && (cfg.maxAttempts > 0 ==> calls <= cfg.maxAttempts)
           && (out == Nil <==> last.ok)
           && (out == ContextError <==>
                 !last.ok && (last.doneAfter || (calls != cfg.maxAttempts && !last.timerWins)))
           && (out == LastError <==> !last.ok && !last.doneAfter && calls == cfg.maxAttempts)
           && (out == StillRunning <==> GoesOn(cfg, turns, calls - 1))
           && (out == StillRunning ==> calls == |turns|)
           && (calls - 1 <= |waits| <= calls)
           && (|waits| == calls <==> !last.ok && !last.doneAfter && calls != cfg.maxAttempts)
  }

  /** So the loop ends by the limit if it has one, and makes one wait less than that. */
  lemma PromisedEnds(cfg: Config, turns: seq<Turn>, out: Outcome, calls: nat, waits: seq<int>)
    requires Promised(cfg, turns, out, calls, waits)
    ensures cfg.maxAttempts > 0 ==> calls <= cfg.maxAttempts && |waits| <= cfg.maxAttempts - 1
    ensures 0 < cfg.maxAttempts <= |turns| ==> out != StillRunning
    ensures |waits| >= calls - 1
  {
  }

  /** The loop, for as many turns as `turns` has; a loop without a limit may still be running then. */
  method Attempt(cfg: Config, turns: seq<Turn>) returns (out: Outcome, calls: nat, waits: seq<int>)
    requires Consistent(turns)
    ensures Promised(cfg, turns, out, calls, waits)
  {
    out, calls, waits := Nil, 0, [];
    var attempt := 0;
    while cfg.maxAttempts == 0 || attempt < cfg.maxAttempts
      invariant attempt == calls == |waits| <= |turns|
      invariant cfg.maxAttempts > 0 ==> attempt < cfg.maxAttempts
      invariant cfg.maxAttempts < 0 ==> attempt == 0
      invariant attempt > 0 ==> out == LastError
      invariant attempt == 0 ==> out == Nil
      invariant forall i :: 0 <= i < calls ==> GoesOn(cfg, turns, i) && !turns[i].doneBefore
      invariant WaitsAre(cfg, turns, waits)
      decreases |turns| - attempt
    {
      if attempt == |turns| {
        return StillRunning, calls, waits;
      }
      var turn := turns[attempt];
      calls := calls + 1;
      if turn.ok {
        return Nil, calls, waits;
      }
      out := LastError;
      if turn.doneAfter {
        return ContextError, calls, waits;
      }
      if cfg.maxAttempts > 0 && attempt >= cfg.maxAttempts - 1 {
        break;
      }
      var delay := Backoff(cfg, attempt, turn.misfit);
      delay := Jittered(cfg, delay, turn.random, turn.misfit);
      waits := waits + [delay];
      if !turn.timerWins {
        return ContextError, calls, waits;
      }
      attempt := attempt + 1;
    }
  }

  /** `Do`: the loop, between what two bounds each of its waits is, and how long all of them together can take. */
  method Do(cfg: Config, turns: seq<Turn>) returns (out: Outcome, calls: nat, waits: seq<int>)
    requires Consistent(turns)
    ensures Promised(cfg, turns, out, calls, waits)
    ensures Sensible(cfg) && cfg.maxAttempts > 0 && LastDelayFits(cfg) ==>
              Total(waits) as real <= Scale((cfg.maxAttempts - 1) as real, LongestWait(cfg))
    ensures Sensible(cfg) && LongestWait(cfg) <= MAX_INT as real ==> EachWithin(cfg, waits)
  {
    out, calls, waits := Attempt(cfg, turns);
    PromisedEnds(cfg, turns, out, calls, waits);
    if Sensible(cfg) && LongestWait(cfg) <= MAX_INT as real {
      EachWaitWithin(cfg, turns, waits);
    }
    if Sensible(cfg) && cfg.maxAttempts > 0 && LastDelayFits(cfg) {
      TotalWaitBound(cfg, turns);
    }
  }

  // ---- Delays ----

  lemma {:induction false} Power2Grows(j: nat, k: nat)
    requires j <= k
    ensures 0 < Power2(j) <= Power2(k)
    decreases k
  {
    if k > 0 {
      if j < k {
        Power2Grows(j, k - 1);
      } else {
        Power2Grows(k - 1, k - 1);
      }
    }
  }

  lemma Doubled(base: int, j: nat, k: nat)
    requires j <= k && base >= 0
    ensures 0 <= base * Power2(j) <= base * Power2(k)
  {
    Power2Grows(j, k);
    MultiplyGrows(base, Power2(j), Power2(k));
  }

  lemma MultiplyGrows(a: int, x: int, y: int)
    requires a >= 0 && 0 <= x <= y
    ensures 0 <= a * x <= a * y
  {
    assert a * y == a * x + a * (y - x);
  }

  /** While the doubled base is a number and fits in 64 bits, the delay before jitter is the smaller of it and the cap,
      and delays do not decrease. */
  lemma BackoffIsCappedDoubling(cfg: Config, j: nat, k: nat, mj: int, mk: int)
    requires Sensible(cfg) && j <= k && DoublesTo64(cfg.baseDelay, k)
    ensures var doubled := cfg.baseDelay * Power2(k);
            Backoff(cfg, k, mk) == if doubled < cfg.maxDelay then doubled else cfg.maxDelay
    ensures 0 <= Backoff(cfg, j, mj) <= Backoff(cfg, k, mk) <= cfg.maxDelay
  {
    Doubled(cfg.baseDelay, j, k);
  }

  lemma ScaleBound(a: real, t: real)
    requires a >= 0.0 && -1.0 <= t <= 1.0
    ensures -a <= Scale(a, t) <= a
    ensures t >= 0.0 ==> Scale(a, t) >= 0.0
  {
    ProductNotNegative(a, 1.0 - t);
    ProductNotNegative(a, 1.0 + t);
    assert a * (1.0 - t) == a - a * t;
    assert a * (1.0 + t) == a + a * t;
    if t >= 0.0 {
      ProductNotNegative(a, t);
    }
  }

  lemma ProductNotNegative(a: real, b: real)
    requires a >= 0.0 && b >= 0.0
    ensures a * b >= 0.0
  {
  }

  lemma ScaleGrows(d: real, max: real, jitter: real)
    requires 0.0 <= d <= max && jitter >= 0.0
    ensures 0.0 <= Scale(d, jitter) <= Scale(max, jitter)
  {
    assert (max - d) * jitter >= 0.0;
  }

  lemma TruncateBound(x: real)
    ensures x >= 0.0 ==> 0.0 <= Truncate(x) as real <= x
    ensures x < 0.0 ==> x <= Truncate(x) as real <= 0.0
  {
  }

  lemma TruncateWithin(x: real, low: int, high: real)
    requires low <= 0 && 0.0 <= high && low as real <= x <= high
    ensures low <= Truncate(x) && Truncate(x) as real <= high
  {
    TruncateBound(x);
  }

  /** Jitter moves a delay by at most its share of the cap, and never across zero. */
  lemma JitterBound(d: int, max: int, jitter: real, t: real)
    requires 0 <= d <= max && 0.0 <= jitter <= 1.0 && -1.0 <= t <= 1.0
    ensures -d <= JitterOf(d, jitter, t) <= d && JitterOf(d, jitter, t) as real <= Scale(max as real, jitter)
  {
    var share := Scale(d as real, jitter);
    ScaleBound(d as real, jitter);
    ScaleBound(share, t);
    ScaleGrows(d as real, max as real, jitter);
    TruncateWithin(Scale(share, t), -d, Scale(max as real, jitter));
    TruncateBound(Scale(share, t));
  }

  /** The cap with the most jitter it can get. */
  function LongestWait(cfg: Config): real {
    cfg.maxDelay as real * (1.0 + cfg.jitter)
  }

  lemma LongestWaitIs(cfg: Config)
    ensures LongestWait(cfg) == cfg.maxDelay as real + Scale(cfg.maxDelay as real, cfg.jitter)
  {
  }

  /** No wait is longer than the cap and its jitter if the delay before jitter is not negative; the sum of the two then
      either is the wait or overflows, and the wait is the base delay. */
  lemma WaitBound(cfg: Config, d: int, r: real, misfit: int)
    requires Sensible(cfg) && 0.0 <= r < 1.0 && 0 <= d <= cfg.maxDelay
    ensures Waiting(Jittered(cfg, d, r, misfit)) as real <= LongestWait(cfg)
    ensures cfg.jitter > 0.0 ==>
              Jittered(cfg, d, r, misfit) ==
              var sum := d + JitterOf(d, cfg.jitter, Swing(r)); if sum > MAX_INT then cfg.baseDelay else sum
  {
    JitterBound(d, cfg.maxDelay, cfg.jitter, Swing(r));
    ScaleBound(cfg.maxDelay as real, cfg.jitter);
    LongestWaitIs(cfg);
  }

  /** The delay before jitter, as long as the doubled base fits in 64 bits: the smaller of it and the cap. */
  function CappedDoubling(cfg: Config, k: nat): int {
    var doubled := cfg.baseDelay * Power2(k);
    if doubled < cfg.maxDelay then doubled else cfg.maxDelay
  }

  /** Within the jitter's share of the delay before it, either way. */
  predicate Within(cfg: Config, k: nat, wait: int) {
    var d := CappedDoubling(cfg, k) as real;
    d - Scale(d, cfg.jitter) <= wait as real <= d + Scale(d, cfg.jitter)
  }

  predicate EachWithin(cfg: Config, waits: seq<int>) {
    forall k :: 0 <= k < |waits| && DoublesTo64(cfg.baseDelay, k) ==> Within(cfg, k, waits[k])
  }

  /** Jitter is a share of the delay, one way or the other: the random number says how much of it. */
  lemma JitterShare(d: int, jitter: real, t: real)
    requires 0 <= d && 0.0 <= jitter <= 1.0 && -1.0 <= t <= 1.0
    ensures -Scale(d as real, jitter) <= JitterOf(d, jitter, t) as real <= Scale(d as real, jitter)
  {
    ScaleBound(d as real, jitter);
    ScaleBound(Scale(d as real, jitter), t);
    TruncateBound(Scale(Scale(d as real, jitter), t));
  }

  /** The middle of the random numbers leaves the delay as it is, and the smallest takes the whole share away. */
  lemma JitterEnds(cfg: Config, d: int, misfit: int)
    requires Sensible(cfg) && 0 <= d <= cfg.maxDelay
    ensures Jittered(cfg, d, 0.5, misfit) == d
    ensures Jittered(cfg, d, 0.0, misfit) == d - (d as real * cfg.jitter).Floor
    ensures cfg.jitter == 0.0 ==> forall r :: Jittered(cfg, d, r, misfit) == d
  {
    var share := Scale(d as real, cfg.jitter);
    ScaleBound(d as real, cfg.jitter);
    assert Scale(share, Swing(0.5)) == 0.0;
    assert Scale(share, Swing(0.0)) == -share;
    TruncateBound(-share);
  }

  /** If the longest wait fits in 64 bits, a wait whose doubled base fits is within its jitter of the capped doubling.
      */
  lemma WaitWithin(cfg: Config, k: nat, turn: Turn)
    requires Sensible(cfg) && 0.0 <= turn.random < 1.0 && DoublesTo64(cfg.baseDelay, k)
    requires LongestWait(cfg) <= MAX_INT as real
    ensures Within(cfg, k, Delay(cfg, k, turn))
  {
    BackoffIsCappedDoubling(cfg, k, k, turn.misfit, turn.misfit);
    var d := Backoff(cfg, k, turn.misfit);
    JitterShare(d, cfg.jitter, Swing(turn.random));
    JitterBound(d, cfg.maxDelay, cfg.jitter, Swing(turn.random));
    WaitBound(cfg, d, turn.random, turn.misfit);
    LongestWaitIs(cfg);
    ScaleBound(d as real, cfg.jitter);
  }

  lemma EachWaitWithin(cfg: Config, turns: seq<Turn>, waits: seq<int>)
    requires Sensible(cfg) && Consistent(turns) && LongestWait(cfg) <= MAX_INT as real
    requires waits == [] || WaitsAre(cfg, turns, waits)
    ensures EachWithin(cfg, waits)
  {
    forall k | 0 <= k < |waits| && DoublesTo64(cfg.baseDelay, k)
      ensures Within(cfg, k, waits[k])
    {
      WaitWithin(cfg, k, turns[k]);
    }
  }

  /** Where a delay that does not fit in 64 bits, or is no number, becomes one that is not negative, no wait is ever
      longer. */
  lemma SaturatingWaitBound(cfg: Config, k: nat, turn: Turn)
    requires Sensible(cfg) && 0.0 <= turn.random < 1.0 && 0 <= turn.misfit <= MAX_INT
    ensures Waiting(Delay(cfg, k, turn)) as real <= LongestWait(cfg)
  {
    Doubled(cfg.baseDelay, 0, k);
    WaitBound(cfg, Backoff(cfg, k, turn.misfit), turn.random, turn.misfit);
  }

  lemma FittingWaitBound(cfg: Config, k: nat, turn: Turn)
    requires Sensible(cfg) && 0.0 <= turn.random < 1.0 && DoublesTo64(cfg.baseDelay, k)
    ensures Waiting(Delay(cfg, k, turn)) as real <= LongestWait(cfg)
  {
    BackoffIsCappedDoubling(cfg, k, k, turn.misfit, turn.misfit);
    WaitBound(cfg, Backoff(cfg, k, turn.misfit), turn.random, turn.misfit);
  }

  // ---- Where a delay that does not fit becomes the smallest integer ----

  ghost predicate AlwaysBounded(cfg: Config, k: nat, misfit: int) {
    forall turn: Turn :: 0.0 <= turn.random < 1.0 && turn.misfit == misfit ==>
                           Waiting(Delay(cfg, k, turn)) as real <= LongestWait(cfg)
  }

  /** The random number for which the jitter of the smallest integer is minus one. */
  lemma MinusOne(jitter: real) returns (r: real)
    requires 0.0 < jitter <= 1.0 && Scale(MAX_INT as real, jitter) > 1.0
    ensures 0.0 <= r < 1.0 && JitterOf(MIN_INT, jitter, Swing(r)) == -1
  {
    var share := Scale(MIN_INT as real, jitter);
    assert share == -Scale(MAX_INT as real, jitter) - jitter;
    var swing := -1.0 / share;
    r := (1.0 + swing) / 2.0;
    QuotientBelowOne(-share);
    assert Swing(r) == swing;
    assert Scale(share, swing) == -1.0;
  }

  lemma QuotientBelowOne(x: real)
    requires x > 1.0
    ensures 0.0 < 1.0 / x < 1.0 && -1.0 / -x == 1.0 / x && -x * (1.0 / x) == -1.0
  {
    var q := 1.0 / x;
    assert q * x == 1.0;
    if q >= 1.0 {
      ProductNotNegative(q - 1.0, x);
    } else if q <= 0.0 {
      ProductNotNegative(-q, x);
    }
  }

  /** There, a wait is bounded by the cap with its jitter for every random number exactly when the doubled base is a
      number and fits in 64 bits: past that the sum with the jitter can wrap around to the largest integer. */
  lemma WaitBoundIff(cfg: Config, k: nat)
    requires Sensible(cfg) && cfg.jitter > 0.0 && Scale(MAX_INT as real, cfg.jitter) > 1.0
    requires LongestWait(cfg) < MAX_INT as real
    ensures AlwaysBounded(cfg, k, MIN_INT) <==> DoublesTo64(cfg.baseDelay, k)
  {
    if DoublesTo64(cfg.baseDelay, k) {
      forall turn: Turn | 0.0 <= turn.random < 1.0 && turn.misfit == MIN_INT
        ensures Waiting(Delay(cfg, k, turn)) as real <= LongestWait(cfg)
      {
        FittingWaitBound(cfg, k, turn);
      }
    } else {
      var r := MinusOne(cfg.jitter);
      var turn := Turn(false, false, false, false, true, r, MIN_INT);
      assert Backoff(cfg, k, MIN_INT) == MIN_INT;
      assert Delay(cfg, k, turn) == MAX_INT;
    }
  }

  function Times(n: nat, x: real): real {
    if n == 0 then 0.0 else Times(n - 1, x) + x
  }

  lemma {:induction false} TimesIsProduct(n: nat, x: real)
    ensures Times(n, x) == Scale(n as real, x)
  {
    if n > 0 {
      TimesIsProduct(n - 1, x);
      assert n as real == (n - 1) as real + 1.0;
    }
  }

  lemma {:induction false} TotalIsBounded(waits: seq<int>, longest: real)
    requires forall k :: 0 <= k < |waits| ==> Waiting(waits[k]) as real <= longest
    ensures Total(waits) as real <= Times(|waits|, longest)
  {
    if waits != [] {
      TotalIsBounded(waits[..|waits| - 1], longest);
    }
  }

  lemma EachWaitBounded(cfg: Config, turns: seq<Turn>, waits: seq<int>)
    requires Sensible(cfg) && Consistent(turns) && WaitsAre(cfg, turns, waits)
    requires |waits| <= cfg.maxAttempts - 1 && LastDelayFits(cfg)
    ensures forall k :: 0 <= k < |waits| ==> Waiting(waits[k]) as real <= LongestWait(cfg)
  {
    forall k | 0 <= k < |waits|
      ensures Waiting(waits[k]) as real <= LongestWait(cfg)
    {
      Doubled(cfg.baseDelay, k, cfg.maxAttempts - 2);
      FittingWaitBound(cfg, k, turns[k]);
    }
  }

  /** All the waits of a run together take at most one wait less than the limit allows attempts, each of the longest
      kind. */
  ghost predicate TotalBounded(cfg: Config, turns: seq<Turn>) {
    forall waits :: WaitsAre(cfg, turns, waits) && |waits| <= cfg.maxAttempts - 1 ==>
                      Total(waits) as real <= Scale((cfg.maxAttempts - 1) as real, LongestWait(cfg))
  }

  lemma TotalWaitBound(cfg: Config, turns: seq<Turn>)
    requires Sensible(cfg) && Consistent(turns) && cfg.maxAttempts > 0 && LastDelayFits(cfg)
    ensures TotalBounded(cfg, turns)
  {
    forall waits | WaitsAre(cfg, turns, waits) && |waits| <= cfg.maxAttempts - 1
      ensures Total(waits) as real <= Scale((cfg.maxAttempts - 1) as real, LongestWait(cfg))
    {
      EachWaitBounded(cfg, turns, waits);
      TotalIsBounded(waits, LongestWait(cfg));
      TimesIsProduct(|waits|, LongestWait(cfg));
      LongestWaitIs(cfg);
      ScaleBound(cfg.maxDelay as real, cfg.jitter);
      ScaleGrows(|waits| as real, (cfg.maxAttempts - 1) as real, LongestWait(cfg));
    }
  }

  predicate FailingTurn(turn: Turn) {
    !turn.ok && !turn.doneInWait && turn.timerWins && 0.0 <= turn.random < 1.0 && turn.misfit == MIN_INT
  }

  predicate AllFail(turns: seq<Turn>) {
    forall i :: 0 <= i < |turns| ==> FailingTurn(turns[i])
  }

  /** A base delay of zero meets the condition up to 1023 doublings, any other base up to 63. */
  lemma WhenDoublesTo64(base: int, k: nat)
    requires 0 <= base
    ensures base == 0 ==> (DoublesTo64(base, k) <==> k <= MAX_EXPONENT)
    ensures base > 0 && DoublesTo64(base, k) ==> k < 63
  {
    if base > 0 && k >= 63 {
      Power2Grows(63, k);
      Power2Is63();
      MultiplyGrows(Power2(k), 1, base);
    }
  }

  lemma Power2Is63()
    ensures Power2(63) == MAX_INT + 1
  {
    assert Power2(8) == 0x100;
    assert Power2(16) == 0x1_0000;
    assert Power2(24) == 0x100_0000;
    assert Power2(32) == 0x1_0000_0000;
    assert Power2(40) == 0x100_0000_0000;
    assert Power2(48) == 0x1_0000_0000_0000;
    assert Power2(56) == 0x100_0000_0000_0000;
  }

  /** Where a delay that does not fit becomes the smallest integer: the bound on the total holds in all runs of failing
      calls exactly when the longest delay fits. */
  lemma TotalWaitBoundIff(cfg: Config)
    requires Sensible(cfg) && cfg.maxAttempts > 0 && cfg.jitter > 0.0 && Scale(MAX_INT as real, cfg.jitter) > 1.0
    requires Scale((cfg.maxAttempts - 1) as real, LongestWait(cfg)) < MAX_INT as real
    ensures (forall turns :: Consistent(turns) && AllFail(turns) ==> TotalBounded(cfg, turns))
            <==> LastDelayFits(cfg)
  {
    if LastDelayFits(cfg) {
      forall turns: seq<Turn> | Consistent(turns) ensures TotalBounded(cfg, turns) {
        TotalWaitBound(cfg, turns);
      }
    } else {
      var n := cfg.maxAttempts - 1;
      var r := MinusOne(cfg.jitter);
      var turn := Turn(false, false, false, false, true, r, MIN_INT);
      var turns := seq(n, _ => turn);
      var waits := seq(n, k requires 0 <= k => Delay(cfg, k, turn));
      assert Delay(cfg, n - 1, turn) == MAX_INT;
      assert Total(waits) >= Waiting(waits[n - 1]) == MAX_INT;
      assert Consistent(turns) && AllFail(turns) && WaitsAre(cfg, turns, waits) && !TotalBounded(cfg, turns);
    }
  }
}
