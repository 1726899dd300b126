/**
 * The parts of Go's `strings` and `strconv` packages that the VFIO driver
 * relies on, for a one-character separator.
 */
module Strings {

  /** Number of occurrences of `c` in `s` (`strings.Count` for a one-character separator). */
  function Count(s: string, c: char): nat
  {
    if s == [] then 0 else (if s[0] == c then 1 else 0) + Count(s[1..], c)
  }

  lemma {:induction false} CountAbsent(s: string, c: char)
    ensures Count(s, c) == 0 <==> c !in s
  {
    if s != [] {
      CountAbsent(s[1..], c);
      assert s == [s[0]] + s[1..];
    }
  }

  lemma {:induction false} CountConcat(a: string, b: string, c: char)
    ensures Count(a + b, c) == Count(a, c) + Count(b, c)
  {
    if a == [] {
      assert a + b == b;
    } else {
      assert (a + b)[1..] == a[1..] + b;
      CountConcat(a[1..], b, c);
    }
  }

  /** Index of the first occurrence of `c` in `s` (`strings.IndexByte` when it finds one). */
  function Index(s: string, c: char): (i: nat)
    requires c in s
    ensures i < |s| && s[i] == c && c !in s[..i]
  {
    if s[0] == c then 0 else 1 + Index(s[1..], c)
  }

  /** `strings.Join` with a one-character separator. */
  function Join(pieces: seq<string>, sep: char): string
  {
    if |pieces| == 0 then ""
    else if |pieces| == 1 then pieces[0]
    else pieces[0] + [sep] + Join(pieces[1..], sep)
  }

  /**
   * `strings.Split(s, sep)`: the pieces of `s` between occurrences of `sep`,
   * one more piece than there are separators (so `""` splits into `[""]`).
   */
  function Split(s: string, sep: char): (pieces: seq<string>)
    ensures |pieces| == Count(s, sep) + 1
  {
    if s == [] then [[]]
    else
      var rest := Split(s[1..], sep);
      if s[0] == sep then [[]] + rest
      else [[s[0]] + rest[0]] + rest[1..]
  }

  /** No piece of a split holds the separator. */
  lemma {:induction false} SplitPieces(s: string, sep: char)
    ensures forall i :: 0 <= i < |Split(s, sep)| ==> sep !in Split(s, sep)[i]
  {
    if s != [] {
      SplitPieces(s[1..], sep);
    }
  }

  /** Splitting and joining again gives back the original string. */
  lemma {:induction false} JoinSplit(s: string, sep: char)
    ensures Join(Split(s, sep), sep) == s
  {
    if s != [] {
      var rest := Split(s[1..], sep);
      JoinSplit(s[1..], sep);
      if s[0] == sep {
        assert ([[]] + rest)[1..] == rest;
      } else if |rest| > 1 {
        assert ([[s[0]] + rest[0]] + rest[1..])[1..] == rest[1..];
      }
      assert s == [s[0]] + s[1..];
    }
  }

  /**
   * `strings.SplitN(s, sep, n)` for `n >= 0`: at most `n` pieces, the last
   * one holding the unsplit remainder; `n == 0` gives no pieces at all.
   */
  function SplitN(s: string, sep: char, n: nat): (pieces: seq<string>)
    ensures |pieces| == if n == 0 then 0 else if n <= Count(s, sep) + 1 then n else Count(s, sep) + 1
    decreases n
  {
    if n == 0 then []
    else if n == 1 || sep !in s then
      CountAbsent(s, sep);
      [s]
    else
      var i := Index(s, sep);
      CutAtFirst(s, sep);
      var rest := SplitN(s[i + 1..], sep, n - 1);
      assert ([s[..i]] + rest)[1..] == rest;
      [s[..i]] + rest
  }

  /**
   * Joining the pieces of `SplitN` gives back the string, and every piece but
   * the last (the unsplit remainder) is free of the separator.
   */
  lemma {:induction false} SplitNPieces(s: string, sep: char, n: nat)
    requires n > 0
    ensures Join(SplitN(s, sep, n), sep) == s
    ensures forall i :: 0 <= i < |SplitN(s, sep, n)| - 1 ==> sep !in SplitN(s, sep, n)[i]
    decreases n
  {
    if n > 1 && sep in s {
      var i := Index(s, sep);
      CutAtFirst(s, sep);
      var rest := SplitN(s[i + 1..], sep, n - 1);
      SplitNPieces(s[i + 1..], sep, n - 1);
      assert SplitN(s, sep, n) == [s[..i]] + rest;
      assert ([s[..i]] + rest)[1..] == rest;
    }
  }

  /** A separator placed after a separator-free prefix adds one to the count. */
  lemma SeparatorAfter(a: string, b: string, sep: char)
    requires sep !in a
    ensures Count(a + [sep] + b, sep) == Count(b, sep) + 1
  {
    CountConcat(a + [sep], b, sep);
    CountConcat(a, [sep], sep);
    CountAbsent(a, sep);
  }

  /** Cutting `s` at its first `sep` leaves no separator before it and one fewer after it. */
  lemma CutAtFirst(s: string, sep: char)
    requires sep in s
    ensures var i := Index(s, sep);
      s == s[..i] + [sep] + s[i + 1..] && Count(s[i + 1..], sep) + 1 == Count(s, sep)
  {
    var i := Index(s, sep);
    assert s == s[..i] + [sep] + s[i + 1..];
    SeparatorAfter(s[..i], s[i + 1..], sep);
  }

  /** The decimal digit for `d`. */
  function Digit(d: nat): (c: char)
    requires d < 10
    ensures '0' <= c <= '9' && c as int - '0' as int == d
  {
    ('0' as int + d) as char
  }

  /** `strconv.Itoa` on a non-negative integer: its decimal digits, most significant first. */
  function Itoa(n: nat): (s: string)
    ensures |s| > 0
    ensures forall i :: 0 <= i < |s| ==> '0' <= s[i] <= '9'
  {
    if n < 10 then [Digit(n)] else Itoa(n / 10) + [Digit(n % 10)]
  }

  /** Different numbers have different decimal forms. */
  lemma {:induction false} ItoaInjective(a: nat, b: nat)
    ensures Itoa(a) == Itoa(b) ==> a == b
  {
    if Itoa(a) == Itoa(b) {
      if a < 10 && b < 10 {
        assert Digit(a) == Itoa(a)[0] == Itoa(b)[0] == Digit(b);
      } else if a >= 10 && b >= 10 {
        var s := Itoa(a);
        assert s == Itoa(a / 10) + [Digit(a % 10)];
        assert s == Itoa(b / 10) + [Digit(b % 10)];
        assert Digit(a % 10) == s[|s| - 1] == Digit(b % 10);
        assert Itoa(a / 10) == s[..|s| - 1] == Itoa(b / 10);
        ItoaInjective(a / 10, b / 10);
      }
    }
  }
}
