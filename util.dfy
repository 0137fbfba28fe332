/** Helpers that the crate takes from `crate::util` and the standard library:
    sortedness, absolute value, maxima, sums and ASCII case mapping. */
module Util {

  /** An 8-bit byte (`u8`). */
  type byte = x: int | 0 <= x < 256

  /** The largest `u32`. */
  const U32_MAX: int := 0x1_0000_0000 - 1

  /** An unsigned 32-bit integer. */
  type u32 = x: int | 0 <= x <= U32_MAX

  function Abs(x: real): (r: real)
    ensures r >= 0.0 && (r == x || r == -x)
  {
    if x < 0.0 then -x else x
  }

  function Max(a: real, b: real): (r: real)
    ensures r >= a && r >= b && (r == a || r == b)
  {
    if a < b then b else a
  }

  /** `crate::util::is_sorted`: non-decreasing. */
  ghost predicate IsSorted(s: seq<real>)
  {
    forall i, j :: 0 <= i < j < |s| ==> s[i] <= s[j]
  }

  /** Sum of a sequence of reals, left to right (what `.iter().sum()` computes). */
  function Sum(s: seq<real>): real
  {
    if s == [] then 0.0 else Sum(s[..|s| - 1]) + s[|s| - 1]
  }

  /** Extending a slice by one element on the right adds that element. */
  lemma SumExtend(s: seq<real>, i: nat, j: nat)
    requires i <= j < |s|
    ensures Sum(s[i..j + 1]) == Sum(s[i..j]) + s[j]
  {
    assert s[i..j + 1][..j - i] == s[i..j];
  }

  /** The sum seen from the left end. */
  lemma {:induction false} SumFirst(s: seq<real>)
    requires |s| > 0
    ensures Sum(s) == s[0] + Sum(s[1..])
  {
    if |s| == 1 {
      assert s[..0] == [] && s[1..] == [];
    } else {
      var init := s[..|s| - 1];
      SumFirst(init);
      assert init[1..] == s[1..][..|s| - 2];
    }
  }

  /** Moving a window one place to the right: drop the first element, add the next one. */
  lemma SlideSum(s: seq<real>, i: nat, j: nat)
    requires i < j < |s|
    ensures Sum(s[i + 1..j + 1]) == Sum(s[i..j]) - s[i] + s[j]
  {
    SumExtend(s, i, j);
    SumFirst(s[i..j + 1]);
    assert s[i..j + 1][1..] == s[i + 1..j + 1];
  }

  /** A sequence of ones sums to its length. */
  lemma {:induction false} SumOnes(s: seq<real>)
    requires forall k :: 0 <= k < |s| ==> s[k] == 1.0
    ensures Sum(s) == |s| as real
  {
    if s != [] {
      SumOnes(s[..|s| - 1]);
    }
  }

  /** The sum of seven values, written out. */
  lemma Sum7(a: real, b: real, c: real, d: real, e: real, f: real, g: real)
    ensures Sum([a, b, c, d, e, f, g]) == a + b + c + d + e + f + g
  {
    assert [a][..0] == [];
    assert Sum([a]) == a;
    assert [a, b][..1] == [a];
    assert Sum([a, b]) == a + b;
    assert [a, b, c][..2] == [a, b];
    assert Sum([a, b, c]) == a + b + c;
    assert [a, b, c, d][..3] == [a, b, c];
    assert Sum([a, b, c, d]) == a + b + c + d;
    assert [a, b, c, d, e][..4] == [a, b, c, d];
    assert Sum([a, b, c, d, e]) == a + b + c + d + e;
    assert [a, b, c, d, e, f][..5] == [a, b, c, d, e];
    assert Sum([a, b, c, d, e, f]) == a + b + c + d + e + f;
    assert [a, b, c, d, e, f, g][..6] == [a, b, c, d, e, f];
  }

  /** Largest element of a non-empty sequence (a chain of `f32::max`). */
  function MaxOf(s: seq<real>): (r: real)
    requires |s| > 0
    ensures forall i :: 0 <= i < |s| ==> s[i] <= r
    ensures exists i :: 0 <= i < |s| && s[i] == r
  {
    if |s| == 1 then s[0] else Max(MaxOf(s[..|s| - 1]), s[|s| - 1])
  }

  /** `char::to_ascii_lowercase`: maps 'A'..'Z' and leaves everything else alone. */
  function LowerChar(c: char): char
  {
    if 'A' <= c <= 'Z' then (c as int + 32) as char else c
  }

  /** `char::to_ascii_uppercase`. */
  function UpperChar(c: char): char
  {
    if 'a' <= c <= 'z' then (c as int - 32) as char else c
  }

  function Lower(s: string): (r: string)
    ensures |r| == |s| && forall i :: 0 <= i < |s| ==> r[i] == LowerChar(s[i])
  {
    seq(|s|, i requires 0 <= i < |s| => LowerChar(s[i]))
  }

  function Upper(s: string): (r: string)
    ensures |r| == |s| && forall i :: 0 <= i < |s| ==> r[i] == UpperChar(s[i])
  {
    seq(|s|, i requires 0 <= i < |s| => UpperChar(s[i]))
  }

  /** Every character is ASCII. */
  predicate IsAscii(s: string)
  {
    forall i :: 0 <= i < |s| ==> s[i] < '\U{80}'
  }

  /** `str::to_lowercase`, character by character: every character replaced by its full Unicode
      lowercase mapping, the table `char::to_lowercase` being the parameter `lower`. Rust also
      lowers a word-final capital sigma to final sigma, a context rule this leaves out; it only
      ever changes non-ASCII output. */
  function ToLowercase(s: string, lower: char -> string): string
  {
    if s == [] then [] else lower(s[0]) + ToLowercase(s[1..], lower)
  }

  /** What the model relies on of `char::to_lowercase`: ASCII characters fold as
      `to_ascii_lowercase` does, KELVIN SIGN U+212A folds to 'k', and every other non-ASCII
      character folds to a string holding a non-ASCII character (U+0130 to "i\u{307}", every
      other one to a single non-ASCII character). U+0130 and U+212A are the only non-ASCII
      characters whose lowercase mapping holds an ASCII character. */
  ghost predicate IsUnicodeLowercase(lower: char -> string)
  {
    && (forall c: char :: c < '\U{80}' ==> lower(c) == [LowerChar(c)])
    && lower('\U{212A}') == "k"
    && (forall c: char :: '\U{80}' <= c && c != '\U{212A}' ==> !IsAscii(lower(c)))
  }

  /** The ASCII image of Unicode lowercasing: ASCII letters lowered, KELVIN SIGN to 'k'. */
  function FoldChar(c: char): char
  {
    if c == '\U{212A}' then 'k' else LowerChar(c)
  }

  function Fold(s: string): (r: string)
    ensures |r| == |s| && forall i :: 0 <= i < |s| ==> r[i] == FoldChar(s[i])
  {
    seq(|s|, i requires 0 <= i < |s| => FoldChar(s[i]))
  }

  /** Unicode lowercasing is ASCII exactly when the folded string is, and then the two agree: so
      wherever only ASCII results matter, `to_lowercase` is `Fold`. */
  lemma {:induction false} ToLowercaseFold(s: string, lower: char -> string)
    requires IsUnicodeLowercase(lower)
    ensures IsAscii(ToLowercase(s, lower)) <==> IsAscii(Fold(s))
    ensures IsAscii(Fold(s)) ==> ToLowercase(s, lower) == Fold(s)
  {
    if s != [] {
      var c := s[0];
      ToLowercaseFold(s[1..], lower);
      assert Fold(s) == [FoldChar(c)] + Fold(s[1..]);
      var l := lower(c);
      assert ToLowercase(s, lower) == l + ToLowercase(s[1..], lower);
      AsciiConcat(l, ToLowercase(s[1..], lower));
      AsciiConcat([FoldChar(c)], Fold(s[1..]));
      if c < '\U{80}' || c == '\U{212A}' {
        assert l == [FoldChar(c)];
      } else {
        assert !IsAscii(l);
        assert !IsAscii([FoldChar(c)]);
      }
    }
  }

  lemma AsciiConcat(a: string, b: string)
    ensures IsAscii(a + b) <==> IsAscii(a) && IsAscii(b)
  {
    if IsAscii(a) && IsAscii(b) {
      forall i | 0 <= i < |a + b|
        ensures (a + b)[i] < '\U{80}'
      {
        if i >= |a| {
          assert (a + b)[i] == b[i - |a|];
        }
      }
    }
    if IsAscii(a + b) {
      forall i | 0 <= i < |a|
        ensures a[i] < '\U{80}'
      {
        assert (a + b)[i] == a[i];
      }
      forall i | 0 <= i < |b|
        ensures b[i] < '\U{80}'
      {
        assert (a + b)[|a| + i] == b[i];
      }
    }
  }

  /** On ASCII input Unicode lowercasing is `to_ascii_lowercase`. */
  lemma ToLowercaseOfAscii(s: string, lower: char -> string)
    requires IsUnicodeLowercase(lower) && IsAscii(s)
    ensures ToLowercase(s, lower) == Lower(s)
  {
    assert Fold(s) == Lower(s);
    ToLowercaseFold(s, lower);
  }

  /** Unicode lowercasing ignores a prior ASCII upper- or lowercasing. */
  lemma {:induction false} ToLowercaseOfCases(s: string, lower: char -> string)
    requires IsUnicodeLowercase(lower)
    ensures ToLowercase(Upper(s), lower) == ToLowercase(s, lower)
    ensures ToLowercase(Lower(s), lower) == ToLowercase(s, lower)
  {
    if s != [] {
      ToLowercaseOfCases(s[1..], lower);
      assert Upper(s)[1..] == Upper(s[1..]);
      assert Lower(s)[1..] == Lower(s[1..]);
      if s[0] < '\U{80}' {
        assert lower(UpperChar(s[0])) == [LowerChar(UpperChar(s[0]))];
        assert lower(LowerChar(s[0])) == [LowerChar(LowerChar(s[0]))];
      }
    }
  }

  /** `u8::to_ascii_lowercase`. */
  function LowerByte(b: byte): byte
  {
    if 65 <= b <= 90 then b + 32 else b
  }

  /** `to_ascii_uppercase` after `to_ascii_lowercase` is plain `to_ascii_uppercase`. */
  lemma UpperOfLower(s: string)
    ensures Upper(Lower(s)) == Upper(s)
  {
  }

  /** `to_ascii_lowercase` after `to_ascii_uppercase` is plain `to_ascii_lowercase`. */
  lemma LowerOfUpper(s: string)
    ensures Lower(Upper(s)) == Lower(s)
  {
  }

  /** Number of bytes the UTF-8 encoding of `c` takes. */
  function CharWidth(c: char): (r: nat)
    ensures 1 <= r <= 4 && (r == 1 <==> (c as int) < 0x80)
  {
    if (c as int) < 0x80 then 1
    else if (c as int) < 0x800 then 2
    else if (c as int) < 0x1_0000 then 3
    else 4
  }

  /** `str::len`: the length in bytes of the UTF-8 encoding. */
  function Utf8Len(s: string): nat
  {
    if s == [] then 0 else CharWidth(s[0]) + Utf8Len(s[1..])
  }

  /** A string has as many bytes as characters exactly when it is all ASCII. */
  lemma {:induction false} Utf8LenAscii(s: string)
    ensures Utf8Len(s) >= |s|
    ensures Utf8Len(s) == |s| <==> forall i :: 0 <= i < |s| ==> (s[i] as int) < 0x80
  {
    if s != [] {
      Utf8LenAscii(s[1..]);
      assert forall i :: 1 <= i < |s| ==> s[i] == s[1..][i - 1];
    }
  }

  function Pow2(n: nat): (r: nat)
    ensures r >= 1
  {
    if n == 0 then 1 else 2 * Pow2(n - 1)
  }

  lemma {:induction false} Pow2Grows(a: nat, b: nat)
    requires a <= b
    ensures Pow2(a) <= Pow2(b)
  {
    if a < b {
      Pow2Grows(a, b - 1);
    }
  }

  lemma DivSmall(x: nat, d: nat)
    requires x < d
    ensures x / d == 0
  {
  }
}
