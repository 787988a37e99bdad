/**
 * The string operations the expense tracker borrows from JavaScript:
 * `toLowerCase`, `includes`, `join`/`split` on one separator character and
 * the decimal digits of a natural number.
 */
module Text {

  // ---------------------------------------------------------------------------
  // Case folding (ASCII letters only)
  // ---------------------------------------------------------------------------

  predicate IsUpper(ch: char) { 'A' <= ch <= 'Z' }

  /** `toLowerCase` of one character; letters outside ASCII are left as they are. */
  function LowerChar(ch: char): (r: char)
    ensures !IsUpper(r)
    ensures !IsUpper(ch) ==> r == ch
  {
    if IsUpper(ch) then (ch as int + 32) as char else ch
  }

  /** `String.prototype.toLowerCase`, character by character. */
  function Lower(s: string): (r: string)
    ensures |r| == |s|
    ensures forall i :: 0 <= i < |s| ==> r[i] == LowerChar(s[i])
  {
    if s == [] then [] else [LowerChar(s[0])] + Lower(s[1..])
  }

  /** Lower-casing twice is lower-casing once. */
  lemma LowerIdempotent(s: string)
    ensures Lower(Lower(s)) == Lower(s)
  {
    assert forall i :: 0 <= i < |s| ==> Lower(Lower(s))[i] == Lower(s)[i];
  }

  // ---------------------------------------------------------------------------
  // Substring search
  // ---------------------------------------------------------------------------

  /** `needle` occurs in `hay` starting at position `i`. */
  predicate OccursAt(hay: string, needle: string, i: int)
  {
    0 <= i && i + |needle| <= |hay| && hay[i..i + |needle|] == needle
  }

  /** `String.prototype.includes`: scan the start positions from left to right. */
  function Contains(hay: string, needle: string): (b: bool)
    decreases |hay|
  {
    (|needle| <= |hay| && hay[..|needle|] == needle) || (hay != [] && Contains(hay[1..], needle))
  }

  /** `needle` occurs at the start of `hay` exactly when `hay` begins with it. */
  lemma OccursAtStart(hay: string, needle: string)
    ensures OccursAt(hay, needle, 0) <==> |needle| <= |hay| && hay[..|needle|] == needle
  {
    if |needle| <= |hay| {
      assert hay[0..0 + |needle|] == hay[..|needle|];
    }
  }

  /** An occurrence past the first position is an occurrence in the tail, one position earlier. */
  lemma OccursInTail(hay: string, needle: string, i: int)
    requires hay != [] && 1 <= i
    ensures OccursAt(hay, needle, i) <==> OccursAt(hay[1..], needle, i - 1)
  {
    if i + |needle| <= |hay| {
      assert hay[1..][i - 1..i - 1 + |needle|] == hay[i..i + |needle|];
    }
  }

  /** The scan finds `needle` exactly when it occurs at some position of `hay`. */
  lemma {:induction false} ContainsIffOccurs(hay: string, needle: string)
    ensures Contains(hay, needle) <==> exists i :: OccursAt(hay, needle, i)
    decreases |hay|
  {
    OccursAtStart(hay, needle);
    if hay == [] {
      assert forall i :: OccursAt(hay, needle, i) ==> i == 0;
    } else {
      ContainsIffOccurs(hay[1..], needle);
      forall i | OccursAt(hay, needle, i) ensures i == 0 || OccursAt(hay[1..], needle, i - 1) {
        if i != 0 {
          OccursInTail(hay, needle, i);
        }
      }
      if Contains(hay[1..], needle) {
        var i :| OccursAt(hay[1..], needle, i);
        OccursInTail(hay, needle, i + 1);
      }
    }
  }

  // ---------------------------------------------------------------------------
  // join / split on one separator character
  // ---------------------------------------------------------------------------

  /** `Array.prototype.join(sep)`. */
  function Join(parts: seq<string>, sep: char): (r: string)
    ensures |parts| == 1 ==> r == parts[0]
  {
    if |parts| == 0 then ""
    else if |parts| == 1 then parts[0]
    else parts[0] + [sep] + Join(parts[1..], sep)
  }

  /** `String.prototype.split(sep)`: the pieces between separators; always at least one. */
  function Split(s: string, sep: char): (parts: seq<string>)
    ensures |parts| >= 1
    decreases |s|
  {
    if s == [] then [""]
    else if s[0] == sep then [""] + Split(s[1..], sep)
    else
      var rest := Split(s[1..], sep);
      [[s[0]] + rest[0]] + rest[1..]
  }

  /** A piece free of `sep`, then `sep`, then anything: the piece is split off first. */
  lemma {:induction false} SplitPiece(p: string, sep: char, s: string)
    requires sep !in p
    ensures Split(p + [sep] + s, sep) == [p] + Split(s, sep)
    ensures Split(p, sep) == [p]
    decreases |p|
  {
    if p == [] {
      assert p + [sep] + s == [sep] + s;
      assert ([sep] + s)[1..] == s;
    } else {
      SplitPiece(p[1..], sep, s);
      assert (p + [sep] + s)[1..] == p[1..] + [sep] + s;
      assert [p[0]] + p[1..] == p;
    }
  }

  /** A join of four parts, spelled out. */
  lemma JoinFour(parts: seq<string>, sep: char)
    requires |parts| == 4
    ensures Join(parts, sep) == parts[0] + [sep] + parts[1] + [sep] + parts[2] + [sep] + parts[3]
  {
    assert Join(parts[3..], sep) == parts[3];
    assert Join(parts[2..], sep) == parts[2] + [sep] + parts[3] by {
      assert parts[2..][1..] == parts[3..];
    }
    assert Join(parts[1..], sep) == parts[1] + [sep] + parts[2] + [sep] + parts[3] by {
      assert parts[1..][1..] == parts[2..];
    }
  }

  /** Splitting a join gives the parts back, provided no part contains the separator. */
  lemma {:induction false} SplitJoin(parts: seq<string>, sep: char)
    requires |parts| >= 1
    requires forall i :: 0 <= i < |parts| ==> sep !in parts[i]
    ensures Split(Join(parts, sep), sep) == parts
  {
    if |parts| == 1 {
      SplitPiece(parts[0], sep, "");
    } else {
      SplitJoin(parts[1..], sep);
      SplitPiece(parts[0], sep, Join(parts[1..], sep));
      assert [parts[0]] + parts[1..] == parts;
    }
  }

  /** The separator occurs in a join only between parts, unless a part holds it. */
  lemma {:induction false} JoinFree(parts: seq<string>, sep: char, ch: char)
    requires ch != sep
    requires forall i :: 0 <= i < |parts| ==> ch !in parts[i]
    ensures ch !in Join(parts, sep)
  {
    if |parts| > 1 {
      JoinFree(parts[1..], sep, ch);
    }
  }

  // ---------------------------------------------------------------------------
  // Decimal digits
  // ---------------------------------------------------------------------------

  predicate IsDigit(ch: char) { '0' <= ch <= '9' }

  predicate AllDigits(s: string) { forall i :: 0 <= i < |s| ==> IsDigit(s[i]) }

  function DigitChar(d: nat): (ch: char)
    requires d < 10
    ensures IsDigit(ch) && ch as int == '0' as int + d
  {
    ('0' as int + d) as char
  }

  function DigitValue(ch: char): (d: nat)
    requires IsDigit(ch)
    ensures d < 10 && ch as int == '0' as int + d
  {
    ch as int - '0' as int
  }

  /** The value of a string of decimal digits, most significant first. */
  function DecValue(s: string): (n: nat)
    requires AllDigits(s)
  {
    if s == [] then 0 else DecValue(s[..|s| - 1]) * 10 + DigitValue(s[|s| - 1])
  }

  /** `Number.prototype.toString()` of a natural number: its digits, no leading zero. */
  function NatToDec(n: nat): (s: string)
    ensures |s| >= 1 && AllDigits(s)
    ensures n >= 10 ==> s[0] != '0'
  {
    if n < 10 then [DigitChar(n)] else NatToDec(n / 10) + [DigitChar(n % 10)]
  }

  /** Reading back the digits of `n` gives `n`. */
  lemma {:induction false} DecValueOfNatToDec(n: nat)
    ensures DecValue(NatToDec(n)) == n
  {
    if n >= 10 {
      DecValueOfNatToDec(n / 10);
      var s := NatToDec(n);
      assert s[..|s| - 1] == NatToDec(n / 10);
    }
  }

  /** `n` written with exactly `width` digits, padded with leading zeros. */
  function PadDec(n: nat, width: nat): (s: string)
    requires n < Pow10(width)
    ensures |s| == width && AllDigits(s)
  {
    if width == 0 then "" else PadDec(n / 10, width - 1) + [DigitChar(n % 10)]
  }

  function Pow10(k: nat): (p: nat)
    ensures p >= 1
  {
    if k == 0 then 1 else 10 * Pow10(k - 1)
  }

  /** A digit string of length `k` has value below `10^k`. */
  lemma {:induction false} DecValueBound(s: string)
    requires AllDigits(s)
    ensures DecValue(s) < Pow10(|s|)
  {
    if s != [] {
      DecValueBound(s[..|s| - 1]);
    }
  }

  /** Padding then reading gives the number back. */
  lemma {:induction false} DecValueOfPadDec(n: nat, width: nat)
    requires n < Pow10(width)
    ensures DecValue(PadDec(n, width)) == n
  {
    if width > 0 {
      DecValueOfPadDec(n / 10, width - 1);
      var s := PadDec(n, width);
      assert s[..|s| - 1] == PadDec(n / 10, width - 1);
    }
  }

  /** Reading then padding to the same width gives the digit string back. */
  lemma {:induction false} PadDecOfDecValue(s: string)
    requires AllDigits(s)
    ensures DecValue(s) < Pow10(|s|) && PadDec(DecValue(s), |s|) == s
  {
    DecValueBound(s);
    if s != [] {
      var init := s[..|s| - 1];
      var d := DigitValue(s[|s| - 1]);
      PadDecOfDecValue(init);
      ShiftDigit(DecValue(init), d);
      assert PadDec(DecValue(s), |s|) == PadDec(DecValue(init), |s| - 1) + [DigitChar(d)];
      assert init + [s[|s| - 1]] == s;
    }
  }

  /** Appending digit `d` to the decimal form of `a` and taking it off again. */
  lemma ShiftDigit(a: nat, d: nat)
    requires d < 10
    ensures (a * 10 + d) / 10 == a && (a * 10 + d) % 10 == d
  {
  }
}
