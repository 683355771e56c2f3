/** Character-level helpers for reading one line of G-code: Python's notion of
    whitespace, `str.rstrip()`, `str.split()`, removal of a `;` comment, and
    decimal rendering of integers. */
module Text {

  /** Python's `str.isspace()`: the characters `str.split()` and `str.rstrip()`
      treat as whitespace (ASCII controls 9-13 and 28-31, space, and the Unicode
      separators). */
  predicate IsSpace(ch: char) {
    var n := ch as int;
    || 9 <= n <= 13 || 28 <= n <= 32
    || n == 0x85 || n == 0xA0 || n == 0x1680
    || 0x2000 <= n <= 0x200A
    || n == 0x2028 || n == 0x2029 || n == 0x202F || n == 0x205F || n == 0x3000
  }

  /** `s.rstrip()`: `s` without its trailing whitespace. */
  function RStrip(s: string): (r: string)
    ensures |r| <= |s| && r == s[..|r|]
    ensures r == [] || !IsSpace(r[|r| - 1])
    ensures forall k :: |r| <= k < |s| ==> IsSpace(s[k])
  {
    if |s| > 0 && IsSpace(s[|s| - 1]) then RStrip(s[..|s| - 1]) else s
  }

  /** The text before the first `;`: what substituting the empty string for
      the pattern `;.*$` leaves of a line that holds no line break. */
  function TrimComment(s: string): (r: string)
    ensures |r| <= |s| && r == s[..|r|]
    ensures ';' !in r
    ensures |r| < |s| ==> s[|r|] == ';'
  {
    if |s| == 0 || s[0] == ';' then [] else [s[0]] + TrimComment(s[1..])
  }

  /** Length of the run of non-whitespace characters that starts `s`. */
  function WordLength(s: string): (n: nat)
    ensures n <= |s|
    ensures forall k :: 0 <= k < n ==> !IsSpace(s[k])
    ensures n == |s| || IsSpace(s[n])
  {
    if |s| == 0 || IsSpace(s[0]) then 0 else 1 + WordLength(s[1..])
  }

  /** `s.split()`: the maximal runs of non-whitespace characters, in order. */
  function Words(s: string): (ws: seq<string>)
    ensures forall k :: 0 <= k < |ws| ==> |ws[k]| > 0
    ensures forall k, j :: 0 <= k < |ws| && 0 <= j < |ws[k]| ==> !IsSpace(ws[k][j])
    decreases |s|
  {
    if |s| == 0 then []
    else if IsSpace(s[0]) then Words(s[1..])
    else
      var n := WordLength(s);
      [s[..n]] + Words(s[n..])
  }

  /** A run of non-whitespace characters is one word. */
  lemma WordsOfWord(w: string)
    requires |w| > 0 && forall k :: 0 <= k < |w| ==> !IsSpace(w[k])
    ensures Words(w) == [w]
  {
    assert w[..|w|] == w;
    assert w[|w|..] == [];
  }

  /** The run of non-whitespace characters at the start of `a` ends where it
      ends in `a` when `a` is followed by whitespace. */
  lemma {:induction false} WordLengthBefore(a: string, c: string)
    requires |c| > 0 && IsSpace(c[0])
    ensures WordLength(a + c) == WordLength(a)
    decreases |a|
  {
    if |a| > 0 && !IsSpace(a[0]) {
      assert (a + c)[1..] == a[1..] + c;
      WordLengthBefore(a[1..], c);
    }
  }

  /** A whitespace character separates words: the words on either side of it
      are the words of the whole, in order. Together with `Words([]) == []`
      and `WordsOfWord`, this determines `Words` on every string. */
  lemma {:induction false} WordsSplit(a: string, ch: char, b: string)
    requires IsSpace(ch)
    ensures Words(a + [ch] + b) == Words(a) + Words(b)
    decreases |a|
  {
    var s := a + [ch] + b;
    if |a| == 0 {
      assert s[1..] == b;
    } else if IsSpace(a[0]) {
      assert s[1..] == a[1..] + [ch] + b;
      WordsSplit(a[1..], ch, b);
    } else {
      WordLengthBefore(a, [ch] + b);
      assert s == a + ([ch] + b);
      var n := WordLength(a);
      assert s[..n] == a[..n];
      assert s[n..] == a[n..] + [ch] + b;
      WordsSplit(a[n..], ch, b);
    }
  }

  /** Decimal digits of a natural number, most significant first (`str(n)`). */
  function NatToString(n: nat): (r: string)
    ensures |r| > 0
    ensures forall k :: 0 <= k < |r| ==> '0' <= r[k] <= '9'
    decreases n
  {
    var d := [(('0' as int) + n % 10) as char];
    if n < 10 then d else NatToString(n / 10) + d
  }

  /** `str(i)` for a Python int: a minus sign before the digits of `|i|`. */
  function IntToString(i: int): string {
    if i < 0 then "-" + NatToString(-i) else NatToString(i)
  }
}
