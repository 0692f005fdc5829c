/**
 * String operations that both ledger recorders rely on: cutting at a separator,
 * joining with one, whitespace tokenising in Rust's and in Python's sense, and
 * Rust's decimal `i32` parser.
 */
module Text {
  import opened Wrappers

  /** Position of the first occurrence of `c` in `s`. */
  function IndexOf(s: string, c: char): (r: Option<nat>)
    ensures r.Some? ==> r.value < |s| && s[r.value] == c && c !in s[..r.value]
    ensures r.None? <==> c !in s
  {
    if |s| == 0 then None
    else if s[0] == c then Some(0)
    else match IndexOf(s[1..], c)
      case None => None
      case Some(i) => assert s[..i + 1] == [s[0]] + s[1..][..i]; Some(i + 1)
  }

  lemma {:induction false} IndexOfAfterPrefix(x: string, c: char, y: string)
    requires c !in x
    ensures IndexOf(x + [c] + y, c) == Some(|x|)
  {
    if |x| > 0 {
      assert (x + [c] + y)[1..] == x[1..] + [c] + y;
      IndexOfAfterPrefix(x[1..], c, y);
    } else {
      assert (x + [c] + y)[0] == c;
    }
  }

  /** `s` cut at its first `sep`, as Rust's `str::split_once` and Python's `str.split(sep, 1)` do. */
  function SplitOnce(s: string, sep: char): (r: Option<(string, string)>)
    ensures r.None? <==> sep !in s
    ensures r.Some? ==> sep !in r.value.0 && r.value.0 + [sep] + r.value.1 == s
  {
    match IndexOf(s, sep)
    case None => None
    case Some(i) => assert s[..i] + [sep] + s[i + 1..] == s; Some((s[..i], s[i + 1..]))
  }

  /** The parts with `sep` between consecutive ones: Rust's `[String]::join` and Python's `str.join`. */
  function Join(parts: seq<string>, sep: char): string
  {
    if |parts| == 0 then ""
    else if |parts| == 1 then parts[0]
    else parts[0] + [sep] + Join(parts[1..], sep)
  }

  /** `s` cut at every `sep`, keeping empty pieces: Rust's `str::split` and Python's `str.split(sep)`. */
  function Split(s: string, sep: char): (parts: seq<string>)
    ensures |parts| >= 1
    ensures forall k :: 0 <= k < |parts| ==> sep !in parts[k]
    ensures Join(parts, sep) == s
    decreases |s|
  {
    match IndexOf(s, sep)
    case None => [s]
    case Some(i) =>
      var rest := Split(s[i + 1..], sep);
      assert ([s[..i]] + rest)[1..] == rest;
      assert s[..i] + [sep] + s[i + 1..] == s;
      [s[..i]] + rest
  }

  /** Joining and then splitting at the same separator gives the parts back. */
  lemma {:induction false} SplitJoin(parts: seq<string>, sep: char)
    requires |parts| >= 1
    requires forall k :: 0 <= k < |parts| ==> sep !in parts[k]
    ensures Split(Join(parts, sep), sep) == parts
  {
    if |parts| > 1 {
      var tail := Join(parts[1..], sep);
      assert Join(parts, sep) == parts[0] + [sep] + tail;
      SplitAtFirst(parts[0], sep, tail);
      SplitJoin(parts[1..], sep);
      assert [parts[0]] + parts[1..] == parts;
    }
  }

  /** A piece without the separator, the separator, then the rest: the piece comes first, then the rest's pieces. */
  lemma SplitAtFirst(x: string, sep: char, y: string)
    requires sep !in x
    ensures Split(x + [sep] + y, sep) == [x] + Split(y, sep)
  {
    IndexOfAfterPrefix(x, sep, y);
    assert (x + [sep] + y)[..|x|] == x;
    assert (x + [sep] + y)[|x| + 1..] == y;
  }

  /** Rust's `char::is_whitespace`: the Unicode White_Space property. */
  predicate IsRustWhitespace(c: char)
  {
    var n := c as int;
    (0x09 <= n <= 0x0D) || n == 0x20 || n == 0x85 || n == 0xA0 || n == 0x1680
    || (0x2000 <= n <= 0x200A) || n == 0x2028 || n == 0x2029 || n == 0x202F
    || n == 0x205F || n == 0x3000
  }

  /** Python's `str.isspace` on one character: White_Space plus the separators U+001C to U+001F. */
  predicate IsPythonWhitespace(c: char)
  {
    IsRustWhitespace(c) || (0x1C <= c as int <= 0x1F)
  }

  predicate IsWord(w: string, ws: char -> bool)
  {
    |w| > 0 && forall j :: 0 <= j < |w| ==> !ws(w[j])
  }

  predicate IsBlank(s: string, ws: char -> bool)
  {
    forall k :: 0 <= k < |s| ==> ws(s[k])
  }

  /** Length of the run of non-whitespace characters at the start of `s`. */
  function WordLen(s: string, ws: char -> bool): (n: nat)
    ensures n <= |s|
    ensures forall k :: 0 <= k < n ==> !ws(s[k])
    ensures n < |s| ==> ws(s[n])
  {
    if |s| == 0 || ws(s[0]) then 0 else 1 + WordLen(s[1..], ws)
  }

  lemma {:induction false} WordLenOfWord(w: string, rest: string, ws: char -> bool)
    requires IsWord(w, ws)
    requires rest == [] || ws(rest[0])
    ensures WordLen(w + rest, ws) == |w|
  {
    if |w| > 1 {
      assert (w + rest)[1..] == w[1..] + rest;
      WordLenOfWord(w[1..], rest, ws);
    } else {
      assert (w + rest)[0] == w[0];
      assert (w + rest)[1..] == rest;
    }
  }

  /** The maximal runs of non-whitespace characters of `s`, in order: Rust's `str::split_whitespace`. */
  function Words(s: string, ws: char -> bool): (r: seq<string>)
    ensures forall k :: 0 <= k < |r| ==> IsWord(r[k], ws)
    decreases |s|
  {
    if |s| == 0 then []
    else if ws(s[0]) then Words(s[1..], ws)
    else var n := WordLen(s, ws); [s[..n]] + Words(s[n..], ws)
  }

  /** A string has no words exactly when it is empty or all whitespace. */
  lemma {:induction false} WordsEmptyIffBlank(s: string, ws: char -> bool)
    ensures Words(s, ws) == [] <==> IsBlank(s, ws)
  {
    if |s| > 0 && ws(s[0]) {
      WordsEmptyIffBlank(s[1..], ws);
      if IsBlank(s[1..], ws) {
        forall k | 0 <= k < |s| ensures ws(s[k]) {
          if k > 0 { assert s[k] == s[1..][k - 1]; }
        }
      }
    }
  }

  /** A word followed by whitespace is the first word; the rest is tokenised on its own. */
  lemma WordsAfterWord(w: string, sep: char, rest: string, ws: char -> bool)
    requires IsWord(w, ws) && ws(sep)
    ensures Words(w + [sep] + rest, ws) == [w] + Words(rest, ws)
  {
    var s := w + [sep] + rest;
    assert s == w + ([sep] + rest);
    WordLenOfWord(w, [sep] + rest, ws);
    assert s[0] == w[0];
    assert s[..|w|] == w;
    assert s[|w|..] == [sep] + rest;
    assert ([sep] + rest)[1..] == rest;
  }

  /** `s` without its leading whitespace. */
  function TrimStart(s: string, ws: char -> bool): (r: string)
    ensures |r| <= |s| && r == s[|s| - |r|..]
    ensures r == [] || !ws(r[0])
    ensures IsBlank(s[..|s| - |r|], ws)
  {
    if |s| == 0 || !ws(s[0]) then s
    else
      var r := TrimStart(s[1..], ws);
      assert s[..|s| - |r|] == [s[0]] + s[1..][..|s| - 1 - |r|];
      r
  }

  /**
   * Python's `s.split(maxsplit=m)` with no separator: leading whitespace is skipped,
   * at most `m` words are cut off, and what is left after them, with its leading
   * whitespace skipped, is kept whole, inner and trailing whitespace included.
   */
  function SplitMax(s: string, maxsplit: nat, ws: char -> bool): (r: seq<string>)
    ensures |r| <= maxsplit + 1
    decreases |s|
  {
    var t := TrimStart(s, ws);
    if |t| == 0 then []
    else if maxsplit == 0 then [t]
    else
      var n := WordLen(t, ws);
      var word := t[..n];
      assert |word| > 0 && word[0] == t[0];
      [word] + SplitMax(t[n..], maxsplit - 1, ws)
  }

  /** A string of whitespace splits into no fields at all. */
  lemma BlankSplitsToNothing(s: string, maxsplit: nat, ws: char -> bool)
    requires IsBlank(s, ws)
    ensures SplitMax(s, maxsplit, ws) == []
  {
  }

  /** Leading whitespace does not change how a string is split. */
  lemma SplitMaxSkipsSpace(sep: char, rest: string, maxsplit: nat, ws: char -> bool)
    requires ws(sep)
    ensures SplitMax([sep] + rest, maxsplit, ws) == SplitMax(rest, maxsplit, ws)
  {
    assert ([sep] + rest)[1..] == rest;
    assert TrimStart([sep] + rest, ws) == TrimStart(rest, ws);
  }

  /** With splits left, a leading word followed by whitespace is cut off as one field. */
  lemma SplitMaxAfterWord(w: string, sep: char, rest: string, maxsplit: nat, ws: char -> bool)
    requires IsWord(w, ws) && ws(sep) && maxsplit > 0
    ensures SplitMax(w + [sep] + rest, maxsplit, ws) == [w] + SplitMax(rest, maxsplit - 1, ws)
  {
    var tail := [sep] + rest;
    var s := w + tail;
    assert w + [sep] + rest == s;
    assert s[0] == w[0];
    assert TrimStart(s, ws) == s;
    WordLenOfWord(w, tail, ws);
    assert s[..|w|] == w;
    assert s[|w|..] == tail;
    assert SplitMax(s, maxsplit, ws) == [w] + SplitMax(tail, maxsplit - 1, ws);
    SplitMaxSkipsSpace(sep, rest, maxsplit - 1, ws);
  }

  /** Two words and a remainder: the remainder comes back whole, whitespace inside it included. */
  lemma SplitMaxTwoWords(a: string, s1: char, b: string, s2: char, rest: string, ws: char -> bool)
    requires IsWord(a, ws) && IsWord(b, ws) && ws(s1) && ws(s2)
    requires |rest| > 0 && !ws(rest[0])
    ensures SplitMax(a + [s1] + b + [s2] + rest, 2, ws) == [a, b, rest]
  {
    var tail := b + [s2] + rest;
    assert a + [s1] + b + [s2] + rest == a + [s1] + tail;
    SplitMaxWordThenRest(b, s2, rest, ws);
    SplitMaxAfterWord(a, s1, tail, 2, ws);
  }

  /** One word and a remainder, with one split left: the word, then the remainder whole. */
  lemma SplitMaxWordThenRest(b: string, s2: char, rest: string, ws: char -> bool)
    requires IsWord(b, ws) && ws(s2)
    requires |rest| > 0 && !ws(rest[0])
    ensures SplitMax(b + [s2] + rest, 1, ws) == [b, rest]
  {
    assert TrimStart(rest, ws) == rest;
    assert SplitMax(rest, 0, ws) == [rest];
    SplitMaxAfterWord(b, s2, rest, 1, ws);
  }

  predicate IsDigit(c: char)
  {
    '0' <= c <= '9'
  }

  predicate AllDigits(s: string)
  {
    forall k :: 0 <= k < |s| ==> IsDigit(s[k])
  }

  /** The number a string of ASCII digits spells in base ten. */
  function DecimalValue(s: string): nat
    requires AllDigits(s)
    decreases |s|
  {
    if |s| == 0 then 0
    else
      var init := s[..|s| - 1];
      assert AllDigits(init) by {
        forall k | 0 <= k < |init| ensures IsDigit(init[k]) { assert init[k] == s[k]; }
      }
      10 * DecimalValue(init) + ((s[|s| - 1] as int) - ('0' as int))
  }

  function DigitChar(d: nat): (c: char)
    requires d < 10
    ensures IsDigit(c) && (c as int) - ('0' as int) == d
  {
    (('0' as int) + d) as char
  }

  /** Decimal text of a natural number, without leading zeros. */
  function NatToDecimal(n: nat): (s: string)
    ensures |s| > 0 && AllDigits(s)
    ensures DecimalValue(s) == n
    ensures |s| > 1 ==> s[0] != '0'
  {
    if n < 10 then [DigitChar(n)]
    else
      var s := NatToDecimal(n / 10) + [DigitChar(n % 10)];
      assert s[..|s| - 1] == NatToDecimal(n / 10);
      s
  }

  const I32Min: int := -0x8000_0000
  const I32Max: int := 0x7FFF_FFFF

  /**
   * Rust's `str::parse::<i32>`: an optional `+` or `-`, then one or more ASCII digits
   * whose value, with the sign applied, lies in the 32-bit signed range; anything else fails.
   */
  function ParseI32(s: string): (r: Option<int>)
    ensures r.Some? ==> I32Min <= r.value <= I32Max
    ensures r.Some? ==> |s| > 0 && (AllDigits(s) || (s[0] in {'+', '-'} && AllDigits(s[1..])))
    ensures |s| > 0 && AllDigits(s) && DecimalValue(s) <= I32Max ==> r == Some(DecimalValue(s))
  {
    if |s| > 0 && (s[0] == '+' || s[0] == '-') then
      var digits := s[1..];
      if |digits| == 0 || !AllDigits(digits) then None
      else
        var d: int := DecimalValue(digits);
        var v := if s[0] == '-' then -d else d;
        if I32Min <= v <= I32Max then Some(v) else None
    else if |s| == 0 || !AllDigits(s) then None
    else if DecimalValue(s) <= I32Max then Some(DecimalValue(s))
    else None
  }

  /** Printing a count in decimal and parsing it back as an `i32` gives the count. */
  lemma ParseI32OfDecimal(n: nat)
    requires n <= I32Max
    ensures ParseI32(NatToDecimal(n)) == Some(n)
  {
    var s := NatToDecimal(n);
    assert IsDigit(s[0]);
  }
}
