/**
 * The index-selection policies of the iterator nodes: clamping for `manual`,
 * the wrap-around advance shared by `sequential`/`loop` and `random`, the
 * `once` and `ping_pong` loop modes of the advanced node, and the shuffle of
 * `random_order`. Each policy is a function of the state it reads; the `Run`
 * functions repeat a policy over successive calls without a reset.
 */
module Selection {

  /**
   * The traversal modes (`mode`). `Unlisted` stands for any other string: it
   * takes the sequential branch but gets no status suffix. The basic node has
   * no random branch, so `Random` behaves there like `Unlisted`.
   */
  datatype Mode = Sequential | Manual | Random | Single | Unlisted

  /** The loop modes of the advanced node (`loop_mode`). */
  datatype LoopMode = Once | Loop | PingPong

  /** The `index` and `iteration` fields of a workflow entry. */
  datatype Cursor = Cursor(index: nat, iteration: nat)

  /** The `index`, `iteration` and `direction` fields the ping-pong mode updates. */
  datatype Swing = Swing(index: nat, iteration: nat, direction: int)

  /** `max(0, min(manual_index, total_count - 1))`. */
  function Clamp(requested: int, n: nat): (r: nat)
    requires n >= 1
    ensures r < n
    ensures 0 <= requested < n ==> r == requested
    ensures requested < 0 ==> r == 0
    ensures requested >= n ==> r == n - 1
  {
    var upper := if requested < n - 1 then requested else n - 1;
    if 0 > upper then 0 else upper
  }

  /**
   * `index = (index + 1) % total_count`, and `iteration += 1` when that lands on 0.
   * Used by the sequential mode of the basic and dynamic nodes, by `loop` in
   * the advanced node and after the draw in random mode.
   */
  function LoopNext(c: Cursor, n: nat): (r: Cursor)
    requires n >= 1
    ensures r.index < n
    ensures c.index + 1 < n ==> r.index == c.index + 1
    ensures c.index + 1 == n ==> r.index == 0
    ensures r.iteration == if r.index == 0 then c.iteration + 1 else c.iteration
  {
    var i := (c.index + 1) % n;
    Cursor(i, if i == 0 then c.iteration + 1 else c.iteration)
  }

  /** `once`: the index moves up only while it is below the last position. */
  function OnceNext(c: Cursor, n: nat): Cursor
    requires n >= 1
  {
    if c.index < n - 1 then c.(index := c.index + 1) else c
  }

  /**
   * `ping_pong`: move by `direction`, then clamp at either end. Reaching the
   * last position turns the direction to -1; reaching 0 turns it to +1 and
   * counts one iteration, and no other step changes `iteration`.
   */
  function PingPongNext(s: Swing, n: nat): (r: Swing)
    requires n >= 1
    ensures r.index < n
    ensures (s.direction == 1 || s.direction == -1) ==> (r.direction == 1 || r.direction == -1)
    ensures r.iteration == if r.index == 0 && r.direction == 1 then s.iteration + 1 else s.iteration
    ensures n >= 2 ==> (r.index == n - 1 ==> r.direction == -1) && (r.index == 0 ==> r.direction == 1)
    ensures 0 < s.index + s.direction < n - 1 ==> r.index == s.index + s.direction && r.direction == s.direction
  {
    var i := s.index + s.direction;
    if i >= n - 1 then
      s.(direction := -1, index := n - 1)
    else if i <= 0 then
      s.(direction := 1, index := 0, iteration := s.iteration + 1)
    else
      s.(index := i)
  }

  /** The cursor after `k` calls of the `loop` policy. */
  function LoopRun(c: Cursor, n: nat, k: nat): Cursor
    requires n >= 1
  {
    if k == 0 then c else LoopNext(LoopRun(c, n, k - 1), n)
  }

  /** The cursor after `k` calls of the `once` policy. */
  function OnceRun(c: Cursor, n: nat, k: nat): Cursor
    requires n >= 1
  {
    if k == 0 then c else OnceNext(OnceRun(c, n, k - 1), n)
  }

  /** The ping-pong state after `k` calls. */
  function PingPongRun(s: Swing, n: nat, k: nat): Swing
    requires n >= 1
  {
    if k == 0 then s else PingPongNext(PingPongRun(s, n, k - 1), n)
  }

  lemma ModSmall(r: int, n: int)
    requires 0 <= r < n
    ensures r % n == r
  {
  }

  lemma ModSelf(n: int)
    requires n > 0
    ensures n % n == 0
  {
  }

  /** One more call moves `k` to the next residue, carrying into the quotient at `n - 1`. */
  lemma DivModStep(k: nat, n: nat)
    requires n >= 1
    ensures k % n < n - 1 ==> (k + 1) % n == k % n + 1 && (k + 1) / n == k / n
    ensures k % n == n - 1 ==> (k + 1) % n == 0 && (k + 1) / n == k / n + 1
  {
    var q, r := k / n, k % n;
    assert k == q * n + r;
    if r < n - 1 {
      DivModUnique(k + 1, n, q, r + 1);
    } else {
      assert k + 1 == (q + 1) * n;
      DivModUnique(k + 1, n, q + 1, 0);
    }
  }

  /** Division with remainder has one answer. */
  lemma DivModUnique(a: int, n: int, q: int, r: int)
    requires n >= 1 && 0 <= r < n && a == q * n + r
    ensures a / n == q && a % n == r
  {
    var q1, r1 := a / n, a % n;
    assert a == q1 * n + r1;
    if q > q1 {
      MulAtLeast(q - q1, n);
    } else if q < q1 {
      MulAtLeast(q1 - q, n);
    }
  }

  lemma MulAtLeast(d: int, n: int)
    requires d >= 1 && n >= 1
    ensures d * n >= n
  {
  }

  /**
   * Sequential with looping, from a fresh or reset entry: the call numbered `k`
   * (from 0) reads index `k % n`, and `iteration` has grown by one for each
   * completed pass, i.e. the sequence is 0, 1, ..., n-1, 0, 1, ... with one
   * iteration counted per wrap.
   */
  lemma {:induction false} LoopRunFromStart(it: nat, n: nat, k: nat)
    requires n >= 1
    ensures LoopRun(Cursor(0, it), n, k) == Cursor(k % n, it + k / n)
  {
    if k > 0 {
      LoopRunFromStart(it, n, k - 1);
      DivModStep(k - 1, n);
      var r := (k - 1) % n;
      if r < n - 1 {
        ModSmall(r + 1, n);
      } else {
        ModSelf(n);
      }
    }
  }

  function Min(a: int, b: int): int {
    if a < b then a else b
  }

  /**
   * `once`: from any position in range, the call numbered `k` reads
   * `min(i + k, n - 1)`, so after reaching the last item every later call
   * reads it again; `iteration` never changes.
   */
  lemma {:induction false} OnceRunClosed(c: Cursor, n: nat, k: nat)
    requires 1 <= n && c.index < n
    ensures OnceRun(c, n, k) == Cursor(Min(c.index + k, n - 1), c.iteration)
  {
    if k > 0 {
      OnceRunClosed(c, n, k - 1);
    }
  }

  /** The length of one ping-pong cycle over `n >= 2` items. */
  function Period(n: nat): nat
    requires n >= 1
  {
    2 * (n - 1)
  }

  /** The index read at phase `m` of a ping-pong cycle: up to n-1, then back down. */
  function Bounce(m: nat, n: nat): nat
    requires 2 <= n && m < Period(n)
  {
    if m <= n - 1 then m else Period(n) - m
  }

  /** The direction stored at phase `m` of a ping-pong cycle. */
  function Heading(m: nat, n: nat): int
    requires n >= 1
  {
    if m < n - 1 then 1 else -1
  }

  lemma PingPongPhaseStep(m: nat, n: nat, it: nat)
    requires 2 <= n && m < Period(n)
    ensures PingPongNext(Swing(Bounce(m, n), it, Heading(m, n)), n)
         == if m + 1 < Period(n) then Swing(Bounce(m + 1, n), it, Heading(m + 1, n))
            else Swing(0, it + 1, 1)
  {
  }

  /**
   * Ping-pong from a fresh or reset entry over `n >= 2` items: the call
   * numbered `k` reads `Bounce(k mod 2(n-1))`, i.e. 0, 1, ..., n-1, n-2, ...,
   * 1, 0, 1, ... with neither end read twice in a row, and one iteration is
   * counted each time the index comes back down to 0.
   */
  lemma {:induction false} PingPongRunFromStart(it: nat, n: nat, k: nat)
    requires n >= 2
    ensures PingPongRun(Swing(0, it, 1), n, k)
         == Swing(Bounce(k % Period(n), n), it + k / Period(n), Heading(k % Period(n), n))
  {
    if k > 0 {
      var p := Period(n);
      PingPongRunFromStart(it, n, k - 1);
      DivModStep(k - 1, p);
      PingPongPhaseStep((k - 1) % p, n, it + (k - 1) / p);
    }
  }

  /**
   * Ping-pong over a single item: the index stays 0 and the direction
   * alternates, so one iteration is counted on every second call.
   */
  lemma {:induction false} PingPongSingleItem(it: nat, k: nat)
    ensures PingPongRun(Swing(0, it, 1), 1, k) == Swing(0, it + k / 2, if k % 2 == 0 then 1 else -1)
  {
    if k > 0 {
      PingPongSingleItem(it, k - 1);
    }
  }

  /** With four prompts the first eight calls read 0, 1, 2, 3, 2, 1, 0, 1. */
  lemma PingPongFourItems()
    ensures forall k :: 0 <= k < 8 ==>
      PingPongRun(Swing(0, 0, 1), 4, k).index == [0, 1, 2, 3, 2, 1, 0, 1][k]
  {
    forall k | 0 <= k < 8
      ensures PingPongRun(Swing(0, 0, 1), 4, k).index == [0, 1, 2, 3, 2, 1, 0, 1][k]
    {
      PingPongRunFromStart(0, 4, k);
      if k < 6 {
        ModSmall(k, 6);
      } else {
        DivModUnique(k, 6, 1, k - 6);
      }
    }
  }

  /** `s` lists each of 0, ..., n-1 exactly once. */
  predicate IsPermutation(s: seq<nat>, n: nat) {
    && |s| == n
    && (forall k :: 0 <= k < n ==> s[k] < n)
    && (forall j, k :: 0 <= j < k < n ==> s[j] != s[k])
  }

  /** `list(range(n))`. */
  function Identity(n: nat): (r: seq<nat>)
    ensures IsPermutation(r, n)
    ensures forall k :: 0 <= k < n ==> r[k] == k
  {
    seq(n, k requires 0 <= k < n => k as nat)
  }

  /**
   * `random.shuffle(order)`, with the permutation it happens to choose passed
   * in: position `k` of the result holds what position `perm[k]` held, and a
   * permutation of 0..n-1 stays one.
   */
  function Shuffle(order: seq<nat>, perm: seq<nat>): (r: seq<nat>)
    requires IsPermutation(perm, |order|)
    ensures |r| == |order|
    ensures forall k :: 0 <= k < |r| ==> r[k] == order[perm[k]]
    ensures IsPermutation(order, |order|) ==> IsPermutation(r, |order|)
  {
    var r := seq(|order|, k requires 0 <= k < |order| => order[perm[k]]);
    ShuffleKeepsPermutation(order, perm, r);
    r
  }

  /** Rearranging a permutation of 0..n-1 by a permutation of positions leaves a permutation of 0..n-1. */
  lemma ShuffleKeepsPermutation(order: seq<nat>, perm: seq<nat>, r: seq<nat>)
    requires IsPermutation(perm, |order|)
    requires |r| == |order| && forall k :: 0 <= k < |r| ==> r[k] == order[perm[k]]
    ensures IsPermutation(order, |order|) ==> IsPermutation(r, |order|)
  {
    if IsPermutation(order, |order|) {
      forall j, k | 0 <= j < k < |r| ensures r[j] != r[k] {
        assert perm[j] != perm[k];
        if perm[j] < perm[k] {
          assert order[perm[j]] != order[perm[k]];
        } else {
          assert order[perm[k]] != order[perm[j]];
        }
      }
    }
  }
}
