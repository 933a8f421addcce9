/**
 * String handling used by the three iterator nodes: Python's `str.strip()`,
 * `str.split('\n')`, the line-list comprehension that every multi-line input
 * goes through, `str.lstrip('_')`, and decimal rendering of indices
 * (`str(i)` and the `{i:03d}` format).
 */
module Text {

  /** The characters Python's `str.isspace()` accepts, which `str.strip()` removes. */
  predicate IsSpace(c: char) {
    || c == ' '
    || ('\t' <= c <= '\r')
    || ('\U{1C}' <= c <= '\U{1F}')
    || c == '\U{85}' || c == '\U{A0}' || c == '\U{1680}'
    || ('\U{2000}' <= c <= '\U{200A}')
    || c == '\U{2028}' || c == '\U{2029}' || c == '\U{202F}' || c == '\U{205F}' || c == '\U{3000}'
  }

  predicate AllSpace(s: string) {
    forall k :: 0 <= k < |s| ==> IsSpace(s[k])
  }

  /** Neither end of `s` is whitespace. */
  predicate Trimmed(s: string) {
    s == [] || (!IsSpace(s[0]) && !IsSpace(s[|s| - 1]))
  }

  /** The index of the first non-whitespace character at or after `i`, or `|s|` when there is none. */
  function FirstSolid(s: string, i: nat): (r: nat)
    requires i <= |s|
    ensures i <= r <= |s|
    ensures forall k :: i <= k < r ==> IsSpace(s[k])
    ensures r < |s| ==> !IsSpace(s[r])
    decreases |s| - i
  {
    if i == |s| || !IsSpace(s[i]) then i else FirstSolid(s, i + 1)
  }

  /** The end of `s[lo..hi]` once its trailing whitespace is dropped. */
  function LastSolid(s: string, lo: nat, hi: nat): (r: nat)
    requires lo <= hi <= |s|
    ensures lo <= r <= hi
    ensures forall k :: r <= k < hi ==> IsSpace(s[k])
    ensures r > lo ==> !IsSpace(s[r - 1])
  {
    if hi == lo || !IsSpace(s[hi - 1]) then hi else LastSolid(s, lo, hi - 1)
  }

  /** `r` occurs in `s` at `lo` with nothing but whitespace before and after it. */
  predicate Framed(s: string, lo: nat, r: string) {
    && lo + |r| <= |s|
    && r == s[lo..lo + |r|]
    && AllSpace(s[..lo])
    && AllSpace(s[lo + |r|..])
  }

  /**
   * `s.strip()`: the characters between the longest all-whitespace prefix and
   * the longest all-whitespace suffix. By `StripUnique` it is the only trimmed
   * string framed by whitespace in `s`.
   */
  function Strip(s: string): (r: string)
    ensures Trimmed(r)
    ensures exists lo :: Framed(s, lo, r)
    ensures r == [] <==> AllSpace(s)
    ensures Trimmed(s) ==> r == s
  {
    var lo := FirstSolid(s, 0);
    var hi := LastSolid(s, lo, |s|);
    StripBounds(s, lo, hi);
    s[lo..hi]
  }

  lemma StripBounds(s: string, lo: nat, hi: nat)
    requires lo <= hi <= |s|
    requires forall k :: 0 <= k < lo ==> IsSpace(s[k])
    requires lo < |s| ==> !IsSpace(s[lo])
    requires forall k :: hi <= k < |s| ==> IsSpace(s[k])
    requires hi > lo ==> !IsSpace(s[hi - 1])
    ensures Trimmed(s[lo..hi])
    ensures Framed(s, lo, s[lo..hi])
    ensures s[lo..hi] == [] <==> AllSpace(s)
    ensures Trimmed(s) ==> s[lo..hi] == s
  {
    if lo < hi {
      assert s[lo..hi][0] == s[lo] && s[lo..hi][hi - lo - 1] == s[hi - 1];
    }
    assert forall k :: 0 <= k < lo ==> s[..lo][k] == s[k];
    assert forall k :: 0 <= k < |s| - hi ==> s[hi..][k] == s[hi + k];
    if Trimmed(s) && s != [] {
      assert lo == 0 && hi == |s|;
      assert s[0..|s|] == s;
    }
  }

  /**
   * The strip is determined by its two properties: a trimmed string framed by
   * whitespace in `s` is `s.strip()`, so `" a b "` strips to `"a b"`.
   */
  lemma StripUnique(s: string, lo: nat, t: string)
    requires Trimmed(t) && Framed(s, lo, t)
    ensures t == Strip(s)
  {
    var hi := lo + |t|;
    forall k | 0 <= k < |s| && (k < lo || hi <= k) ensures IsSpace(s[k]) {
      if k < lo {
        assert s[k] == s[..lo][k];
      } else {
        assert s[k] == s[hi..][k - hi];
      }
    }
    if t != [] {
      assert s[lo] == t[0] && s[hi - 1] == t[|t| - 1];
      var a := FirstSolid(s, 0);
      assert a == lo;
      var b := LastSolid(s, a, |s|);
      assert b == hi;
    }
  }

  lemma StripExample()
    ensures Strip(" a b ") == "a b"
  {
    var s := " a b ";
    assert Framed(s, 1, "a b") by {
      assert s[..1] == " " && s[4..] == " " && s[1..4] == "a b";
    }
    StripUnique(s, 1, "a b");
  }

  /** Stripping adds no characters: a string without a newline strips to one without. */
  lemma StripNoNewline(s: string)
    ensures '\n' !in s ==> '\n' !in Strip(s)
  {
    var lo := FirstSolid(s, 0);
    var r := Strip(s);
    if '\n' in r {
      var k :| 0 <= k < |r| && r[k] == '\n';
      assert s[lo + k] == '\n';
    }
  }

  /** `s.split('\n')`: always at least one piece. */
  function Split(s: string): (r: seq<string>)
    ensures |r| >= 1
  {
    if s == [] then
      [[]]
    else
      var rest := Split(s[1..]);
      if s[0] == '\n' then [[]] + rest else [[s[0]] + rest[0]] + rest[1..]
  }

  /** The inverse of `Split`: the pieces joined with `'\n'`. */
  function Join(lines: seq<string>): string
    requires |lines| >= 1
  {
    if |lines| == 1 then lines[0] else lines[0] + "\n" + Join(lines[1..])
  }

  /**
   * The filter step of `[x.strip() for x in pieces if x.strip()]`: each piece is
   * stripped and the empty ones are dropped, in order.
   */
  function Keep(pieces: seq<string>): (r: seq<string>)
    ensures |r| <= |pieces|
    ensures forall k :: 0 <= k < |r| ==> r[k] != [] && Trimmed(r[k])
  {
    if pieces == [] then
      []
    else
      var head := Strip(pieces[0]);
      (if head == [] then [] else [head]) + Keep(pieces[1..])
  }

  /**
   * `[x.strip() for x in s.strip().split('\n') if x.strip()]`, the parse applied
   * to the prompt, filename and suffix inputs: a list of non-empty, trimmed,
   * single-line (`ParseLinesNoNewline`) entries.
   */
  function ParseLines(s: string): (r: seq<string>)
    ensures forall k :: 0 <= k < |r| ==> r[k] != [] && Trimmed(r[k])
  {
    Keep(Split(Strip(s)))
  }

  /** No piece of a split holds a newline. */
  lemma {:induction false} SplitNoNewline(s: string)
    ensures forall k :: 0 <= k < |Split(s)| ==> '\n' !in Split(s)[k]
  {
    if s != [] {
      SplitNoNewline(s[1..]);
      var rest := Split(s[1..]);
      if s[0] != '\n' {
        assert '\n' !in [s[0]] + rest[0];
      }
    }
  }

  /** Stripping and dropping pieces keeps them newline-free. */
  lemma {:induction false} KeepNoNewline(pieces: seq<string>)
    requires forall k :: 0 <= k < |pieces| ==> '\n' !in pieces[k]
    ensures forall k :: 0 <= k < |Keep(pieces)| ==> '\n' !in Keep(pieces)[k]
  {
    if pieces != [] {
      StripNoNewline(pieces[0]);
      KeepNoNewline(pieces[1..]);
    }
  }

  /** Every parsed entry is a single line. */
  lemma ParseLinesNoNewline(s: string)
    ensures forall k :: 0 <= k < |ParseLines(s)| ==> '\n' !in ParseLines(s)[k]
  {
    SplitNoNewline(Strip(s));
    KeepNoNewline(Split(Strip(s)));
  }

  /** `s.lstrip('_')`: every leading underscore is removed, not only the first. */
  function LStripUnderscores(s: string): (r: string)
    ensures |r| <= |s| && r == s[|s| - |r|..]
    ensures forall k :: 0 <= k < |s| - |r| ==> s[k] == '_'
    ensures r == [] || r[0] != '_'
  {
    if s != [] && s[0] == '_' then LStripUnderscores(s[1..]) else s
  }

  predicate IsDigit(c: char) {
    '0' <= c <= '9'
  }

  function DigitChar(d: nat): (c: char)
    requires d < 10
    ensures IsDigit(c) && DigitValue(c) == d
  {
    ('0' as int + d) as char
  }

  function DigitValue(c: char): int {
    c as int - '0' as int
  }

  /** `str(n)` for a non-negative integer: its decimal digits, without leading zeros. */
  function Decimal(n: nat): (r: string)
    ensures |r| >= 1
    ensures forall k :: 0 <= k < |r| ==> IsDigit(r[k])
    ensures n > 0 ==> r[0] != '0'
  {
    if n < 10 then [DigitChar(n)] else Decimal(n / 10) + [DigitChar(n % 10)]
  }

  /** The number a digit string denotes (leading zeros contribute nothing). */
  function ValueOf(s: string): int {
    if s == [] then 0 else ValueOf(s[..|s| - 1]) * 10 + DigitValue(s[|s| - 1])
  }

  function Zeros(k: nat): (r: string)
    ensures |r| == k && forall j :: 0 <= j < k ==> r[j] == '0'
  {
    if k == 0 then [] else Zeros(k - 1) + "0"
  }

  /** `f"{n:03d}"`: the decimal digits of `n`, zero-padded on the left to width 3. */
  function Pad3(n: nat): string {
    var d := Decimal(n);
    if |d| >= 3 then d else Zeros(3 - |d|) + d
  }

  lemma {:induction false} DecimalRoundTrip(n: nat)
    ensures ValueOf(Decimal(n)) == n
  {
    if n >= 10 {
      var d := Decimal(n);
      assert d[..|d| - 1] == Decimal(n / 10);
      DecimalRoundTrip(n / 10);
    }
  }

  /** The width of `str(n)` for the ranges the `{:03d}` padding cares about. */
  lemma {:induction false} DecimalWidth(n: nat)
    ensures n < 10 <==> |Decimal(n)| == 1
    ensures n < 100 <==> |Decimal(n)| <= 2
    ensures n < 1000 <==> |Decimal(n)| <= 3
  {
    if n >= 10 {
      DecimalWidth(n / 10);
    }
  }

  lemma {:induction false} ValueOfZeros(k: nat, d: string)
    ensures ValueOf(Zeros(k) + d) == ValueOf(d)
  {
    if d == [] {
      assert Zeros(k) + d == Zeros(k);
      if k > 0 {
        assert Zeros(k)[..k - 1] == Zeros(k - 1);
        ValueOfZeros(k - 1, []);
        assert Zeros(k - 1) + [] == Zeros(k - 1);
      }
    } else {
      var init := d[..|d| - 1];
      assert (Zeros(k) + d)[..|Zeros(k) + d| - 1] == Zeros(k) + init;
      ValueOfZeros(k, init);
    }
  }

  /**
   * `{:03d}` is exactly three digits below 1000 and plain `str(n)` from 1000 on,
   * and it always reads back as `n`.
   */
  lemma Pad3RoundTrip(n: nat)
    ensures ValueOf(Pad3(n)) == n
    ensures forall k :: 0 <= k < |Pad3(n)| ==> IsDigit(Pad3(n)[k])
    ensures n < 1000 ==> |Pad3(n)| == 3
    ensures n >= 1000 ==> Pad3(n) == Decimal(n) && |Pad3(n)| > 3
  {
    DecimalRoundTrip(n);
    DecimalWidth(n);
    var d := Decimal(n);
    if |d| < 3 {
      ValueOfZeros(3 - |d|, d);
    }
  }

  /** Splitting a newline-free head followed by a tail. */
  lemma {:induction false} SplitAfterLine(a: string, t: string)
    requires '\n' !in a
    ensures Split(a + t) == [a + Split(t)[0]] + Split(t)[1..]
  {
    var pieces := Split(t);
    if a == [] {
      assert a + t == t && a + pieces[0] == pieces[0];
      assert pieces == [pieces[0]] + pieces[1..];
    } else {
      assert a[0] in a;
      assert (a + t)[0] == a[0] && (a + t)[1..] == a[1..] + t;
      SplitAfterLine(a[1..], t);
      var rest := Split(a[1..] + t);
      assert rest[0] == a[1..] + pieces[0] && rest[1..] == pieces[1..];
      assert [a[0]] + (a[1..] + pieces[0]) == a + pieces[0];
    }
  }

  /** `Split` undoes `Join` when no line holds a newline. */
  lemma {:induction false} SplitJoin(lines: seq<string>)
    requires |lines| >= 1
    requires forall k :: 0 <= k < |lines| ==> '\n' !in lines[k]
    ensures Split(Join(lines)) == lines
  {
    if |lines| == 1 {
      SplitAfterLine(lines[0], []);
      assert lines[0] + [] == lines[0];
    } else {
      var rest := lines[1..];
      SplitJoin(rest);
      assert lines[0] + "\n" + Join(rest) == lines[0] + ("\n" + Join(rest));
      var tail := "\n" + Join(rest);
      SplitAfterLine(lines[0], tail);
      assert tail[0] == '\n' && tail[1..] == Join(rest);
      assert Split(tail) == [[]] + rest;
      assert lines[0] + Split(tail)[0] == lines[0];
      assert lines == [lines[0]] + rest;
    }
  }

  lemma {:induction false} JoinEnds(lines: seq<string>)
    requires |lines| >= 1 && forall k :: 0 <= k < |lines| ==> lines[k] != []
    ensures Join(lines) != []
    ensures Join(lines)[0] == lines[0][0]
    ensures Join(lines)[|Join(lines)| - 1] == lines[|lines| - 1][|lines[|lines| - 1]| - 1]
  {
    if |lines| > 1 {
      JoinEnds(lines[1..]);
    }
  }

  lemma {:induction false} KeepClean(lines: seq<string>)
    requires forall k :: 0 <= k < |lines| ==> lines[k] != [] && Trimmed(lines[k])
    ensures Keep(lines) == lines
  {
    if lines != [] {
      KeepClean(lines[1..]);
    }
  }

  /**
   * Order is kept: parsing distributes over concatenation of the pieces, so each
   * entry of the result comes from the piece in the same relative position.
   */
  lemma {:induction false} KeepConcat(a: seq<string>, b: seq<string>)
    ensures Keep(a + b) == Keep(a) + Keep(b)
  {
    if a != [] {
      assert (a + b)[1..] == a[1..] + b;
      KeepConcat(a[1..], b);
    } else {
      assert a + b == b;
    }
  }

  /**
   * Parsing inverts joining: a list of non-empty, trimmed, single-line entries
   * written one per line parses back to itself.
   */
  lemma ParseJoinRoundTrip(lines: seq<string>)
    requires |lines| >= 1
    requires forall k :: 0 <= k < |lines| ==> lines[k] != [] && Trimmed(lines[k]) && '\n' !in lines[k]
    ensures ParseLines(Join(lines)) == lines
  {
    JoinEnds(lines);
    var s := Join(lines);
    assert Trimmed(s);
    assert Strip(s) == s;
    SplitJoin(lines);
    KeepClean(lines);
  }

  lemma {:induction false} SplitHead(s: string)
    requires s != [] && s[0] != '\n'
    ensures Split(s)[0] != [] && Split(s)[0][0] == s[0]
  {
  }

  /**
   * The only input that parses to no entries is an all-whitespace one; it is the
   * input for which the nodes return their error result.
   */
  lemma ParseLinesEmpty(s: string)
    ensures ParseLines(s) == [] <==> AllSpace(s)
  {
    var t := Strip(s);
    if AllSpace(s) {
      assert t == [];
      assert Split(t) == [[]];
      assert Keep([[]]) == [] + Keep([]);
    } else {
      assert t != [] && !IsSpace(t[0]);
      SplitHead(t);
      var pieces := Split(t);
      assert pieces == [pieces[0]] + pieces[1..];
      assert !AllSpace(pieces[0]) by {
        assert !IsSpace(pieces[0][0]);
      }
      assert Strip(pieces[0]) != [];
    }
  }

  /** `[...] if s else []`: the guard the filename and suffix inputs go through. */
  function ParseOptional(s: string): seq<string> {
    if s == [] then [] else ParseLines(s)
  }

  /** The guard is redundant: parsing the empty string already gives no lines. */
  lemma ParseOptionalIsParseLines(s: string)
    ensures ParseOptional(s) == ParseLines(s)
  {
    if s == [] {
      ParseLinesEmpty(s);
    }
  }
}
