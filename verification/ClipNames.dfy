/** Scratch names: a counter padded to six digits, sorted as strings. */
module ClipNames {
  import opened Collections

  function Pow10(width: nat): nat {
    if width == 0 then 1 else 10 * Pow10(width - 1)
  }

  /** The last `width` decimal digits of `i`, most significant first. */
  function Digits(i: nat, width: nat): (s: string)
    ensures |s| == width
  {
    if width == 0 then "" else Digits(i / 10, width - 1) + [('0' as int + i % 10) as char]
  }

  function DigitCount(i: nat): nat {
    if i < 10 then 1 else 1 + DigitCount(i / 10)
  }

  /** `"{:06d}.mp4".format(i)` */
  function Name(i: nat): string {
    Digits(i, if DigitCount(i) < 6 then 6 else DigitCount(i)) + ".mp4"
  }

  /** Lexicographic order, as `sorted` uses it. */
  predicate Less(a: string, b: string) {
    b != "" && (a == "" || a[0] < b[0] || (a[0] == b[0] && Less(a[1..], b[1..])))
  }

  lemma {:induction false} LessOnSuffix(a: string, b: string, s: string)
    requires |a| == |b| && Less(a, b)
    ensures Less(a + s, b + s)
  {
    assert (a + s)[1..] == a[1..] + s && (b + s)[1..] == b[1..] + s;
    if a[0] == b[0] && !(a[0] < b[0]) { LessOnSuffix(a[1..], b[1..], s); }
  }

  lemma {:induction false} LessOnPrefix(p: string, a: string, b: string)
    requires Less(a, b)
    ensures Less(p + a, p + b)
  {
    if p == "" {
      assert p + a == a && p + b == b;
    } else {
      LessOnPrefix(p[1..], a, b);
      assert (p + a)[1..] == p[1..] + a && (p + b)[1..] == p[1..] + b;
    }
  }

  lemma {:induction false} DigitsOrder(i: nat, j: nat, width: nat)
    requires i < j < Pow10(width)
    ensures Less(Digits(i, width), Digits(j, width))
  {
    if width > 0 {
      var di, dj := [('0' as int + i % 10) as char], [('0' as int + j % 10) as char];
      if i / 10 < j / 10 {
        DigitsOrder(i / 10, j / 10, width - 1);
        LessOnUnequalTails(Digits(i / 10, width - 1), Digits(j / 10, width - 1), di, dj);
      } else {
        LessOnPrefix(Digits(i / 10, width - 1), di, dj);
      }
    }
  }

  lemma {:induction false} LessOnUnequalTails(a: string, b: string, s: string, t: string)
    requires |a| == |b| && Less(a, b)
    ensures Less(a + s, b + t)
  {
    assert (a + s)[1..] == a[1..] + s && (b + t)[1..] == b[1..] + t;
    if a[0] == b[0] && !(a[0] < b[0]) { LessOnUnequalTails(a[1..], b[1..], s, t); }
  }

  lemma {:induction false} DigitCountBound(i: nat, width: nat)
    requires width >= 1 && i < Pow10(width)
    ensures DigitCount(i) <= width
  {
    if i >= 10 { DigitCountBound(i / 10, width - 1); }
  }

  lemma MillionIsPow10()
    ensures Pow10(6) == 1000000
  {
    assert Pow10(3) == 1000;
    assert Pow10(4) == 10000;
    assert Pow10(5) == 100000;
  }

  /** The number a string of digits spells. */
  function Value(s: string): int {
    if s == "" then 0 else 10 * Value(s[..|s| - 1]) + (s[|s| - 1] as int - '0' as int)
  }

  lemma {:induction false} DigitsSpell(i: nat, width: nat)
    requires i < Pow10(width)
    ensures Value(Digits(i, width)) == i
  {
    if width > 0 {
      DigitsSpell(i / 10, width - 1);
      assert Digits(i, width)[..width - 1] == Digits(i / 10, width - 1);
    }
  }

  lemma {:induction false} DigitsSuffice(i: nat, width: nat)
    requires DigitCount(i) <= width
    ensures i < Pow10(width)
    decreases width
  {
    if i >= 10 { DigitsSuffice(i / 10, width - 1); } else { TenAtLeast(width); }
  }

  lemma {:induction false} TenAtLeast(width: nat)
    requires width >= 1
    ensures Pow10(width) >= 10
  {
    if width > 1 { TenAtLeast(width - 1); }
  }

  /** A name spells its number, in six digits as long as they are enough. */
  lemma NameSpells(i: nat)
    ensures var n := |Name(i)| - 4;
            && n >= 6 && Name(i)[n..] == ".mp4" && Value(Name(i)[..n]) == i
            && (n == 6 <==> i < 1000000)
  {
    var width := if DigitCount(i) < 6 then 6 else DigitCount(i);
    DigitsSuffice(i, width);
    DigitsSpell(i, width);
    assert Name(i)[..width] == Digits(i, width);
    MillionIsPow10();
    if i < 1000000 { DigitCountBound(i, 6); }
  }

  /** Below one million, names sort as numbers do. */
  lemma NamesInOrder(i: nat, j: nat)
    requires i < j < 1000000
    ensures Less(Name(i), Name(j))
  {
    MillionIsPow10();
    DigitCountBound(i, 6);
    DigitCountBound(j, 6);
    DigitsOrder(i, j, 6);
    LessOnSuffix(Digits(i, 6), Digits(j, 6), ".mp4");
  }

  /** The leading digit is the multiple of the leading power of ten. */
  lemma {:induction false} FirstDigit(i: nat, d: nat, width: nat)
    requires width >= 1 && d < 10 && d * Pow10(width - 1) <= i < d * Pow10(width - 1) + Pow10(width - 1)
    ensures Digits(i, width)[0] as int == '0' as int + d
  {
    if width == 1 {
      assert Digits(i, 1) == [('0' as int + i % 10) as char];
    } else {
      var p := Pow10(width - 2);
      assert d * (10 * p) == 10 * (d * p);
      FirstDigit(i / 10, d, width - 1);
      assert Digits(i, width)[0] == Digits(i / 10, width - 1)[0];
    }
  }

  /** The millionth copy would sort before its predecessor. */
  lemma MillionthNameIsOutOfOrder()
    ensures Less(Name(1000000), Name(999999)) && !Less(Name(999999), Name(1000000))
  {
    MillionIsPow10();
    DigitCountBound(999999, 6);
    assert Pow10(5) == 100000;
    FirstDigit(999999, 9, 6);
    FirstDigit(1000000, 1, 7);
    assert DigitCount(1000000) == 7 by {
      assert DigitCount(100) == 3;
      assert DigitCount(10000) == 5;
    }
  }

  lemma {:induction false} LessIsStrict(a: string, b: string)
    ensures !(Less(a, b) && Less(b, a)) && (Less(a, b) || Less(b, a) || a == b)
    decreases |a|
  {
    if a != "" && b != "" && a[0] == b[0] {
      LessIsStrict(a[1..], b[1..]);
      assert a == [a[0]] + a[1..] && b == [b[0]] + b[1..];
    }
  }

  lemma {:induction false} LessIsTransitive(a: string, b: string, c: string)
    requires Less(a, b) && Less(b, c)
    ensures Less(a, c)
    decreases |a|
  {
    if a != "" && a[0] == b[0] && b[0] == c[0] {
      LessIsTransitive(a[1..], b[1..], c[1..]);
    }
  }

  /** Before `b`, which is not after `c`, means before `c`. */
  lemma NotLater(a: string, b: string, c: string)
    requires Less(a, b) && !Less(c, b)
    ensures Less(a, c)
  {
    LessIsStrict(b, c);
    if Less(b, c) { LessIsTransitive(a, b, c); }
  }

  /** Names in the order `sorted` puts them. */
  ghost predicate SortedByName(names: seq<nat>) {
    forall i, j :: 0 <= i < j < |names| ==> !Less(Name(names[j]), Name(names[i]))
  }

  ghost predicate AscendingNumbers(names: seq<nat>) {
    forall i, j :: 0 <= i < j < |names| ==> names[i] < names[j]
  }

  lemma SortedNamesAscend(names: seq<nat>)
    requires SortedByName(names) && Distinct(names)
    requires forall i :: 0 <= i < |names| ==> names[i] < 1000000
    ensures AscendingNumbers(names)
  {
    forall i, j | 0 <= i < j < |names| ensures names[i] < names[j] {
      if names[j] < names[i] { NamesInOrder(names[j], names[i]); }
    }
  }

  /** A scratch of n segments, listed by name, is in counting order if and only
      if there are at most one million of them. */
  lemma ListingAscendsExactly(names: seq<nat>, n: nat)
    requires SortedByName(names) && Distinct(names) && forall i :: i in names <==> i < n
    ensures AscendingNumbers(names) <==> n <= 1000000
  {
    assert forall i :: 0 <= i < |names| ==> names[i] in names;
    if n <= 1000000 {
      SortedNamesAscend(names);
    } else {
      MillionthNameIsOutOfOrder();
      assert 999999 in names && 1000000 in names;
      var i :| 0 <= i < |names| && names[i] == 999999;
      var j :| 0 <= j < |names| && names[j] == 1000000;
      assert Less(Name(names[j]), Name(names[i])) && j < i;
      assert names[j] > names[i];
    }
  }
}
