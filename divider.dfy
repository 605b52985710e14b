/**
 * The divider line: `token.repeat(printWidth).slice(0, printWidth)` with a print width of 80.
 */
module DividerBuilder {
  /** The width of the divider line. */
  const PrintWidth: nat := 80

  /** `s.repeat(count)`: `count` copies of `s`, one after the other. */
  function Repeat(s: string, count: nat): (r: string)
    ensures |r| == count * |s|
  {
    if count == 0 then [] else s + Repeat(s, count - 1)
  }

  /**
   * `s.slice(0, end)` for a non-negative `end`: the first `end` characters of `s`,
   * or all of `s` when it is shorter.
   */
  function SliceFromStart(s: string, end: nat): (r: string)
    ensures |r| == if end <= |s| then end else |s|
    ensures r <= s
  {
    if end <= |s| then s[..end] else s
  }

  /** The divider of a given width: the token repeated `width` times, cut to `width` characters. */
  function BuildDivider(token: string, width: nat): (r: string)
    ensures |r| == if token == [] then 0 else width
    ensures r <= Repeat(token, width)
  {
    SliceFromStart(Repeat(token, width), width)
  }

  /** The divider the insert command builds. */
  function Divider(token: string): (r: string)
    ensures token != [] ==> |r| == PrintWidth
    ensures token == [] ==> r == []
  {
    BuildDivider(token, PrintWidth)
  }

  /** A string of the given width whose character `i` is the token's character `i mod |token|`. */
  ghost predicate IsPeriodicLine(r: string, token: string, width: nat)
    requires token != []
  {
    |r| == width && forall i :: 0 <= i < width ==> r[i] == token[i % |token|]
  }

  /** Every character of a repetition is the token's character at the same offset modulo its length. */
  lemma {:induction false} RepeatAt(s: string, count: nat, i: nat)
    requires |s| > 0 && i < |Repeat(s, count)|
    ensures Repeat(s, count)[i] == s[i % |s|]
  {
    var rest := Repeat(s, count - 1);
    assert Repeat(s, count) == s + rest;
    if i < |s| {
      ModUnique(i, |s|, 0, i);
    } else {
      RepeatAt(s, count - 1, i - |s|);
      ModOfShift(i - |s|, |s|);
    }
  }

  /** Adding one period does not change the remainder. */
  lemma ModOfShift(j: nat, n: nat)
    requires n > 0
    ensures (j + n) % n == j % n
  {
    var q := j / n;
    assert j + n == (q + 1) * n + j % n;
    ModUnique(j + n, n, q + 1, j % n);
  }

  /** The remainder is determined by any decomposition `j == q * n + r` with `0 <= r < n`. */
  lemma ModUnique(j: int, n: int, q: int, r: int)
    requires n > 0 && 0 <= r < n && j == q * n + r
    ensures j % n == r
  {
    var q0, r0 := j / n, j % n;
    assert j == q0 * n + r0;
    assert (q - q0) * n == r0 - r;
    if q > q0 {
      MulAtLeast(q - q0, n);
      assert false;
    }
    if q < q0 {
      MulAtLeast(q0 - q, n);
      assert false;
    }
  }

  lemma MulAtLeast(k: int, n: int)
    requires k >= 1 && n > 0
    ensures k * n >= n
  {
  }

  /** Character `i` of the divider is `token[i mod |token|]`. */
  lemma DividerAt(token: string, i: nat)
    requires token != [] && i < PrintWidth
    ensures Divider(token)[i] == token[i % |token|]
  {
    assert i < PrintWidth * |token|;
    RepeatAt(token, PrintWidth, i);
  }

  /** For a non-empty token, the divider is exactly the 80-character periodic line of that token. */
  lemma DividerIsPeriodicLine(token: string, r: string)
    requires token != []
    ensures r == Divider(token) <==> IsPeriodicLine(r, token, PrintWidth)
  {
    forall i | 0 <= i < PrintWidth
      ensures Divider(token)[i] == token[i % |token|]
    {
      DividerAt(token, i);
    }
    if IsPeriodicLine(r, token, PrintWidth) {
      assert r == Divider(token);
    }
  }

  /** A one-character token gives 80 copies of that character. */
  lemma SingleCharacterDivider(c: char)
    ensures Divider([c]) == seq(PrintWidth, _ => c)
  {
    var line := seq(PrintWidth, _ => c);
    forall i | 0 <= i < PrintWidth
      ensures line[i] == [c][i % 1]
    {
      ModUnique(i, 1, i, 0);
    }
    DividerIsPeriodicLine([c], line);
  }


  /** A token of 80 characters or more is simply cut to its first 80. */
  lemma DividerOfLongTokenIsItsPrefix(token: string)
    requires |token| >= PrintWidth
    ensures Divider(token) == token[..PrintWidth]
  {
  }
}
