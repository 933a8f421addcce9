/**
 * The seed policy of the dynamic and advanced nodes (`seed_mode`): the seed an
 * entry starts from, the value each call outputs, and the `current_seed` it
 * leaves behind. Seeds live in [0, 2^31 - 1]; increments wrap modulo 2^31.
 */
module Seeds {
  import opened Selection

  const MaxSeed: int := 2147483647
  const SeedModulus: int := 2147483648

  datatype SeedMode = FixedSeed | IncrementBatch | IncrementPrompt | RandomSeed

  predicate InSeedRange(x: int) {
    0 <= x <= MaxSeed
  }

  /** `generation_seed if generation_seed >= 0 else random.randint(0, 2147483647)`. */
  function InitialSeed(generationSeed: int, draw: int): int {
    if generationSeed >= 0 then generationSeed else draw
  }

  /** `(current_seed + 1) % 2147483648`. */
  function Bump(current: int): int {
    (current + 1) % SeedModulus
  }

  /**
   * `should_increment`: every call for `increment_prompt`; for `increment_batch`
   * only when the call read index 0 and the iteration count, already advanced,
   * is positive.
   */
  function ShouldIncrement(mode: SeedMode, currentIndex: nat, iteration: nat): bool {
    || mode == IncrementPrompt
    || (mode == IncrementBatch && currentIndex == 0 && iteration > 0)
  }

  /** The seed a call outputs and the `current_seed` it stores. */
  datatype SeedOut = SeedOut(output: int, current: int)

  /** The dynamic node: a `random` draw is output but not stored. */
  function DynamicSeed(mode: SeedMode, current: int, currentIndex: nat, iteration: nat, draw: int): SeedOut {
    if ShouldIncrement(mode, currentIndex, iteration) then SeedOut(Bump(current), Bump(current))
    else if mode == RandomSeed then SeedOut(draw, current)
    else SeedOut(current, current)
  }

  /** The advanced node: a `random` draw is output and also stored. */
  function AdvancedSeed(mode: SeedMode, current: int, currentIndex: nat, iteration: nat, draw: int): SeedOut {
    if ShouldIncrement(mode, currentIndex, iteration) then SeedOut(Bump(current), Bump(current))
    else if mode == RandomSeed then SeedOut(draw, draw)
    else SeedOut(current, current)
  }

  /**
   * What each policy promises for one call, in both nodes: `fixed` outputs and
   * keeps the stored seed; an increment outputs the stored successor modulo
   * 2^31; `random` outputs the draw, which only the advanced node stores; and
   * whatever happens the stored seed stays in range.
   */
  lemma SeedPolicy(mode: SeedMode, current: int, currentIndex: nat, iteration: nat, draw: int)
    requires InSeedRange(current) && InSeedRange(draw)
    ensures var d, a := DynamicSeed(mode, current, currentIndex, iteration, draw),
                        AdvancedSeed(mode, current, currentIndex, iteration, draw);
      && InSeedRange(d.output) && InSeedRange(d.current)
      && InSeedRange(a.output) && InSeedRange(a.current)
      && (mode == FixedSeed ==> d == a == SeedOut(current, current))
      && (mode == IncrementPrompt ==> d == a == SeedOut(Bump(current), Bump(current)))
      && (mode == IncrementPrompt ==> a.output == if current == MaxSeed then 0 else current + 1)
      && (mode == IncrementBatch ==>
            d == a == if currentIndex == 0 && iteration > 0 then SeedOut(Bump(current), Bump(current))
                      else SeedOut(current, current))
      && (mode == RandomSeed ==> d == SeedOut(draw, current) && a == SeedOut(draw, draw))
      && (d.output == a.output)
  {
  }

  /** The stored seed after `k` calls of `increment_prompt`. */
  function PromptSeedRun(current: int, k: nat): int {
    if k == 0 then current else Bump(PromptSeedRun(current, k - 1))
  }

  /** `k` calls of `increment_prompt` move the seed `k` steps on, modulo 2^31. */
  lemma {:induction false} PromptSeedRunClosed(current: int, k: nat)
    requires InSeedRange(current)
    ensures PromptSeedRun(current, k) == (current + k) % SeedModulus
  {
    if k > 0 {
      PromptSeedRunClosed(current, k - 1);
      BumpMod(current + k - 1);
    }
  }

  /** One sequential/loop call under `increment_batch`: advance, then apply the policy. */
  function BatchNext(c: Cursor, seed: int, n: nat): (Cursor, int)
    requires n >= 1
  {
    var next := LoopNext(c, n);
    (next, DynamicSeed(IncrementBatch, seed, c.index, next.iteration, 0).current)
  }

  /** The cursor and stored seed after `k` such calls. */
  function BatchRun(c: Cursor, seed: int, n: nat, k: nat): (Cursor, int)
    requires n >= 1
  {
    if k == 0 then (c, seed)
    else var prev := BatchRun(c, seed, n, k - 1); BatchNext(prev.0, prev.1, n)
  }

  /** How many increments `increment_batch` has made after `q` passes and `r` calls. */
  function BatchIncrements(q: nat, r: nat): nat {
    if r == 0 then (if q == 0 then 0 else q - 1) else q
  }

  lemma BumpMod(j: int)
    ensures Bump(j % SeedModulus) == (j + 1) % SeedModulus
  {
  }

  /** One call inside a pass: the seed moves only on the call that reads index 0. */
  lemma BatchNextWithin(n: nat, q: nat, r: nat, stored: int)
    requires 2 <= n && 0 < r < n
    ensures BatchNext(Cursor(r - 1, q), stored, n)
         == (Cursor(r, q), if r == 1 && q > 0 then Bump(stored) else stored)
  {
    ModSmall(r, n);
  }

  /** The call that ends a pass reads index n-1, so the seed stays put. */
  lemma BatchNextWrap(n: nat, q: nat, stored: int)
    requires 2 <= n
    ensures BatchNext(Cursor(n - 1, q), stored, n) == (Cursor(0, q + 1), stored)
  {
    ModSelf(n);
  }

  /** One call from the state after `q` passes and `r` further calls. */
  lemma BatchStepFrom(seed: int, n: nat, q: nat, r: nat)
    requires 2 <= n && r < n
    ensures var q', r' := if r < n - 1 then q else q + 1, if r < n - 1 then r + 1 else 0;
      BatchNext(Cursor(r, q), (seed + BatchIncrements(q, r)) % SeedModulus, n)
        == (Cursor(r', q'), (seed + BatchIncrements(q', r')) % SeedModulus)
  {
    var j := seed + BatchIncrements(q, r);
    if r < n - 1 {
      BatchNextWithin(n, q, r + 1, j % SeedModulus);
      if r == 0 && q > 0 {
        assert j + 1 == seed + BatchIncrements(q, r + 1);
        BumpMod(j);
      } else {
        assert j == seed + BatchIncrements(q, r + 1);
      }
    } else {
      assert j == seed + BatchIncrements(q + 1, 0);
      BatchNextWrap(n, q, j % SeedModulus);
    }
  }

  /**
   * `increment_batch` with sequential looping over `n >= 2` prompts from a fresh
   * entry: the seed is unchanged through the first pass, and goes up by exactly
   * one on the first call of every later pass (calls n, 2n, ... counted from 0),
   * so after `q` passes and `r` more calls it has gone up `BatchIncrements(q, r)`
   * times.
   */
  lemma {:induction false} BatchRunFromStart(seed: int, n: nat, k: nat)
    requires n >= 2 && InSeedRange(seed)
    ensures BatchRun(Cursor(0, 0), seed, n, k)
         == (Cursor(k % n, k / n), (seed + BatchIncrements(k / n, k % n)) % SeedModulus)
  {
    if k > 0 {
      var q, r := (k - 1) / n, (k - 1) % n;
      BatchRunFromStart(seed, n, k - 1);
      BatchStepFrom(seed, n, q, r);
      DivModStep(k - 1, n);
    }
  }

  /**
   * The seed call number `k` (from 0) outputs under `increment_batch` with
   * `n >= 2` prompts from (0, 0): the stored seed after `k + 1` calls, which is
   * the starting seed plus the number of completed passes `k div n`.
   */
  lemma BatchSeedOfCall(seed: int, n: nat, k: nat)
    requires n >= 2 && InSeedRange(seed)
    ensures BatchRun(Cursor(0, 0), seed, n, k + 1).1 == (seed + k / n) % SeedModulus
  {
    BatchRunFromStart(seed, n, k + 1);
    DivModStep(k, n);
    assert BatchIncrements((k + 1) / n, (k + 1) % n) == k / n;
  }

  /**
   * A single prompt: every call reads index 0 and wraps, so the iteration
   * count is already positive and `increment_batch` bumps the seed on every
   * call, the first one included, exactly like `increment_prompt`.
   */
  lemma {:induction false} BatchSingleItem(seed: int, k: nat)
    requires InSeedRange(seed)
    ensures BatchRun(Cursor(0, 0), seed, 1, k) == (Cursor(0, k), (seed + k) % SeedModulus)
  {
    if k > 0 {
      BatchSingleItem(seed, k - 1);
      BumpMod(seed + k - 1);
    }
  }

  /** The worked case of three prompts: the seed goes up at calls 3, 6 and 9 and nowhere else. */
  lemma BatchThreePrompts(seed: int)
    requires InSeedRange(seed) && seed + 3 <= MaxSeed
    ensures forall k :: 0 <= k <= 3 ==> BatchRun(Cursor(0, 0), seed, 3, k).1 == seed
    ensures forall k :: 4 <= k <= 6 ==> BatchRun(Cursor(0, 0), seed, 3, k).1 == seed + 1
    ensures forall k :: 7 <= k <= 9 ==> BatchRun(Cursor(0, 0), seed, 3, k).1 == seed + 2
    ensures BatchRun(Cursor(0, 0), seed, 3, 10).1 == seed + 3
  {
    forall k | 0 <= k <= 10 ensures BatchRun(Cursor(0, 0), seed, 3, k).1 == seed + BatchIncrements(k / 3, k % 3) {
      BatchRunFromStart(seed, 3, k);
      var q := if k < 3 then 0 else if k < 6 then 1 else if k < 9 then 2 else 3;
      DivModUnique(k, 3, q, k - 3 * q);
    }
  }
}
