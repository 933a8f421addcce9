/**
 * The text the nodes hand back besides the filename: the status line
 * (`Prompt i/N` with a mode-dependent suffix), the error message for an empty
 * batch, and the advanced node's prepend/append composition.
 */
module Messages {
  import opened Text
  import opened Selection

  const NoPromptsError: string := "Error: No prompts provided"

  /** `f"Prompt {current_index + 1}/{total_count}"`. */
  function Counter(current: nat, total: nat): string {
    "Prompt " + Decimal(current + 1) + "/" + Decimal(total)
  }

  /** The basic node: the iteration count is shown only in sequential mode. */
  function BasicStatus(mode: Mode, current: nat, total: nat, iteration: nat): string {
    Counter(current, total) + (if mode == Sequential then " (Iteration " + Decimal(iteration + 1) + ")" else "")
  }

  /** The dynamic node: the iteration count in sequential mode, a `(random)` mark in random mode. */
  function DynamicStatus(mode: Mode, current: nat, total: nat, iteration: nat): string {
    Counter(current, total)
      + (if mode == Sequential then " (Iteration " + Decimal(iteration + 1) + ")"
         else if mode == Random then " (random)"
         else "")
  }

  /** The advanced node: `| Iteration k`, marked `(ping-pong)` in that loop mode, or `(random)`. */
  function AdvancedStatus(mode: Mode, loop: LoopMode, current: nat, total: nat, iteration: nat): string {
    Counter(current, total)
      + (if mode == Sequential then
           " | Iteration " + Decimal(iteration + 1) + (if loop == PingPong then " (ping-pong)" else "")
         else if mode == Random then " (random)"
         else "")
  }

  /** `f"{prepend_text}{base_prompt}{append_text}".strip()`. */
  function Compose(prepend: string, prompt: string, append: string): (r: string)
    ensures Trimmed(r)
    ensures r == [] <==> AllSpace(prepend + prompt + append)
  {
    Strip(prepend + prompt + append)
  }

  predicate AllDigits(s: string) {
    forall k :: 0 <= k < |s| ==> IsDigit(s[k])
  }

  /** `s` is empty or does not start with a digit. */
  predicate Delimited(s: string) {
    s == [] || !IsDigit(s[0])
  }

  /** A run of digits followed by a non-digit (or nothing) can be cut off in one way only. */
  lemma DigitRunUnique(a: string, s: string, c: string, t: string)
    requires AllDigits(a) && AllDigits(c) && Delimited(s) && Delimited(t)
    requires a + s == c + t
    ensures a == c && s == t
  {
    assert forall k :: 0 <= k < |a| ==> IsDigit((a + s)[k]);
    assert forall k :: 0 <= k < |c| ==> IsDigit((c + t)[k]);
    assert s != [] ==> !IsDigit((a + s)[|a|]);
    assert t != [] ==> !IsDigit((c + t)[|c|]);
    assert |a| == |c| ==> a == (a + s)[..|a|] && c == (c + t)[..|c|];
    assert |a| == |c| ==> s == (a + s)[|a|..] && t == (c + t)[|c|..];
  }

  lemma DecimalInjective(m: nat, n: nat)
    requires Decimal(m) == Decimal(n)
    ensures m == n
  {
    DecimalRoundTrip(m);
    DecimalRoundTrip(n);
  }

  /**
   * A counter followed by text that does not start with a digit determines the
   * 1-based position and the count it was written from, and what follows it.
   */
  lemma CounterReadBack(c1: nat, n1: nat, x1: string, c2: nat, n2: nat, x2: string)
    requires Delimited(x1) && Delimited(x2)
    requires Counter(c1, n1) + x1 == Counter(c2, n2) + x2
    ensures c1 == c2 && n1 == n2 && x1 == x2
  {
    var a, b, c, d := Decimal(c1 + 1), Decimal(n1), Decimal(c2 + 1), Decimal(n2);
    CounterParts(a, b, x1);
    CounterParts(c, d, x2);
    DropPrefix("Prompt ", a + ("/" + (b + x1)), c + ("/" + (d + x2)));
    DigitRunUnique(a, "/" + (b + x1), c, "/" + (d + x2));
    DropPrefix("/", b + x1, d + x2);
    DigitRunUnique(b, x1, d, x2);
    DecimalInjective(c1 + 1, c2 + 1);
    DecimalInjective(n1, n2);
  }

  lemma CounterParts(a: string, b: string, x: string)
    ensures "Prompt " + a + "/" + b + x == "Prompt " + (a + ("/" + (b + x)))
  {
  }

  lemma DropPrefix(p: string, u: string, v: string)
    requires p + u == p + v
    ensures u == v
  {
    assert u == (p + u)[|p|..];
    assert v == (p + v)[|p|..];
  }

  /** Every status line of the basic node starts with the counter. */
  lemma BasicStatusShape(mode: Mode, current: nat, total: nat, iteration: nat)
    ensures var s := BasicStatus(mode, current, total, iteration);
      && s[..|Counter(current, total)|] == Counter(current, total)
      && Delimited(s[|Counter(current, total)|..])
  {
    var x := if mode == Sequential then " (Iteration " + Decimal(iteration + 1) + ")" else "";
    assert BasicStatus(mode, current, total, iteration)[|Counter(current, total)|..] == x;
  }

  /**
   * The basic node's status reports the position and the count it was built
   * from; a sequential status also reports the iteration, and only a
   * sequential status mentions one.
   */
  lemma BasicStatusReadBack(m1: Mode, c1: nat, n1: nat, i1: nat, m2: Mode, c2: nat, n2: nat, i2: nat)
    requires BasicStatus(m1, c1, n1, i1) == BasicStatus(m2, c2, n2, i2)
    ensures c1 == c2 && n1 == n2
    ensures (m1 == Sequential) == (m2 == Sequential)
    ensures m1 == Sequential ==> i1 == i2
  {
    var x1 := if m1 == Sequential then " (Iteration " + Decimal(i1 + 1) + ")" else "";
    var x2 := if m2 == Sequential then " (Iteration " + Decimal(i2 + 1) + ")" else "";
    CounterReadBack(c1, n1, x1, c2, n2, x2);
    if m1 == Sequential && m2 == Sequential {
      IterationReadBack(" (Iteration ", i1, ")", i2, ")");
    }
  }

  /** A lead, a rendered iteration number and a delimited tail read back to the number. */
  lemma IterationReadBack(lead: string, i1: nat, t1: string, i2: nat, t2: string)
    requires Delimited(t1) && Delimited(t2)
    requires lead + Decimal(i1 + 1) + t1 == lead + Decimal(i2 + 1) + t2
    ensures i1 == i2 && t1 == t2
  {
    var a, c := Decimal(i1 + 1), Decimal(i2 + 1);
    assert a + t1 == (lead + a + t1)[|lead|..];
    assert c + t2 == (lead + c + t2)[|lead|..];
    DigitRunUnique(a, t1, c, t2);
    DecimalInjective(i1 + 1, i2 + 1);
  }

  /**
   * The dynamic node's status reports position and count, tells sequential,
   * random and the other modes apart, and in sequential mode reports the
   * iteration.
   */
  lemma DynamicStatusReadBack(m1: Mode, c1: nat, n1: nat, i1: nat, m2: Mode, c2: nat, n2: nat, i2: nat)
    requires DynamicStatus(m1, c1, n1, i1) == DynamicStatus(m2, c2, n2, i2)
    ensures c1 == c2 && n1 == n2
    ensures (m1 == Sequential) == (m2 == Sequential)
    ensures (m1 == Random) == (m2 == Random)
    ensures m1 == Sequential ==> i1 == i2
  {
    var x1 := if m1 == Sequential then " (Iteration " + Decimal(i1 + 1) + ")" else if m1 == Random then " (random)" else "";
    var x2 := if m2 == Sequential then " (Iteration " + Decimal(i2 + 1) + ")" else if m2 == Random then " (random)" else "";
    CounterReadBack(c1, n1, x1, c2, n2, x2);
    assert m1 == Sequential ==> x1[2] == 'I';
    assert m1 == Random ==> x1[2] == 'r';
    assert m2 == Sequential ==> x2[2] == 'I';
    assert m2 == Random ==> x2[2] == 'r';
    if m1 == Sequential && m2 == Sequential {
      IterationReadBack(" (Iteration ", i1, ")", i2, ")");
    }
  }

  /**
   * The advanced node's status reports position and count, tells the modes
   * apart, and in sequential mode reports the iteration and whether the loop
   * mode is ping-pong.
   */
  lemma AdvancedStatusReadBack(m1: Mode, l1: LoopMode, c1: nat, n1: nat, i1: nat,
                               m2: Mode, l2: LoopMode, c2: nat, n2: nat, i2: nat)
    requires AdvancedStatus(m1, l1, c1, n1, i1) == AdvancedStatus(m2, l2, c2, n2, i2)
    ensures c1 == c2 && n1 == n2
    ensures (m1 == Sequential) == (m2 == Sequential)
    ensures (m1 == Random) == (m2 == Random)
    ensures m1 == Sequential ==> i1 == i2 && ((l1 == PingPong) == (l2 == PingPong))
  {
    var t1 := if l1 == PingPong then " (ping-pong)" else "";
    var t2 := if l2 == PingPong then " (ping-pong)" else "";
    var x1 := if m1 == Sequential then " | Iteration " + Decimal(i1 + 1) + t1 else if m1 == Random then " (random)" else "";
    var x2 := if m2 == Sequential then " | Iteration " + Decimal(i2 + 1) + t2 else if m2 == Random then " (random)" else "";
    CounterReadBack(c1, n1, x1, c2, n2, x2);
    assert m1 == Sequential ==> x1[1] == '|';
    assert m1 == Random ==> x1[1] == '(';
    assert m2 == Sequential ==> x2[1] == '|';
    assert m2 == Random ==> x2[1] == '(';
    if m1 == Sequential && m2 == Sequential {
      IterationReadBack(" | Iteration ", i1, t1, i2, t2);
      assert |t1| == if l1 == PingPong then 12 else 0;
      assert |t2| == if l2 == PingPong then 12 else 0;
    }
  }

  lemma ConcatTrimmed(pre: string, p: string, app: string)
    requires p != [] && Trimmed(p)
    requires pre == [] || !IsSpace(pre[0])
    requires app == [] || !IsSpace(app[|app| - 1])
    ensures Trimmed(pre + p + app)
  {
    var s := pre + p + app;
    assert s[0] == if pre == [] then p[0] else pre[0];
    assert s[|s| - 1] == if app == [] then p[|p| - 1] else app[|app| - 1];
  }

  /**
   * Empty affixes leave a parsed prompt as it is; affixes whose outer ends are
   * not whitespace survive the final strip intact, inner spaces included.
   */
  lemma ComposeKeepsText(pre: string, p: string, app: string)
    requires p != [] && Trimmed(p)
    requires pre == [] || !IsSpace(pre[0])
    requires app == [] || !IsSpace(app[|app| - 1])
    ensures Compose(pre, p, app) == pre + p + app
    ensures Compose("", p, "") == p
  {
    ConcatTrimmed(pre, p, app);
    assert "" + p + "" == p;
  }

  /** `Compose("masterpiece, ", "a cat", "  ")` is `"masterpiece, a cat"`: only the outer ends are stripped. */
  lemma ComposeExample()
    ensures Compose("masterpiece, ", "a cat", "  ") == "masterpiece, a cat"
  {
    var s := "masterpiece, " + "a cat" + "  ";
    assert !IsSpace(s[0]) && IsSpace(s[|s| - 1]) && IsSpace(s[|s| - 2]) && !IsSpace(s[|s| - 3]);
    assert FirstSolid(s, 0) == 0;
    assert LastSolid(s, 0, |s|) == |s| - 2;
    assert s[0..|s| - 2] == "masterpiece, a cat";
  }
}
