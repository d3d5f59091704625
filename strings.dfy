/** The Python string operations the modelled code relies on: `split` on
  * one separator character, `replace(c, '')`, and the zero-padded decimal
  * fields that `strftime` writes. */
module Strings {
  import opened Common

  /** `s.split(c)`: the pieces between occurrences of `c`, in order; there
    * is always at least one piece. */
  function Split(s: string, c: char): (r: seq<string>)
    ensures |r| >= 1
    ensures forall k :: 0 <= k < |r| ==> c !in r[k]
    decreases |s|
  {
    if s == [] then [""]
    else
      var rest := Split(s[1..], c);
      if s[0] == c then [""] + rest
      else
        var head := [s[0]] + rest[0];
        assert forall k :: 1 <= k < |rest| ==> c !in ([head] + rest[1..])[k] by {
          forall k | 1 <= k < |rest| ensures ([head] + rest[1..])[k] == rest[k] { }
        }
        [head] + rest[1..]
  }

  /** `c.join(parts)`. */
  function Join(parts: seq<string>, c: char): string
  {
    if parts == [] then ""
    else if |parts| == 1 then parts[0]
    else parts[0] + [c] + Join(parts[1..], c)
  }

  /** Splitting and joining again gives back the string. */
  lemma {:induction false} JoinSplit(s: string, c: char)
    ensures Join(Split(s, c), c) == s
    decreases |s|
  {
    if s != [] {
      JoinSplit(s[1..], c);
      if s[0] == c {
        JoinSplitAtSeparator(s, c);
      } else {
        JoinSplitAtChar(s, c);
      }
    }
  }

  /** The induction step of JoinSplit for a leading separator. */
  lemma JoinSplitAtSeparator(s: string, c: char)
    requires s != [] && s[0] == c && Join(Split(s[1..], c), c) == s[1..]
    ensures Join(Split(s, c), c) == s
  {
    var rest := Split(s[1..], c);
    assert [""] + rest == Split(s, c);
    assert ([""] + rest)[1..] == rest;
    assert [c] + Join(rest, c) == s;
  }

  /** The induction step of JoinSplit for a leading ordinary character. */
  lemma JoinSplitAtChar(s: string, c: char)
    requires s != [] && s[0] != c && Join(Split(s[1..], c), c) == s[1..]
    ensures Join(Split(s, c), c) == s
  {
    var rest := Split(s[1..], c);
    var head := [s[0]] + rest[0];
    var r := [head] + rest[1..];
    assert Split(s, c) == r;
    if |rest| == 1 {
      assert Join(r, c) == head;
      assert Join(rest, c) == rest[0];
    } else {
      assert r[1..] == rest[1..];
      assert Join(rest, c) == rest[0] + [c] + Join(rest[1..], c);
    }
    assert [s[0]] + s[1..] == s;
  }

  /** A piece with no separator in front of the rest splits off as the
    * first piece. */
  lemma {:induction false} SplitCons(a: string, b: string, c: char)
    requires c !in a
    ensures Split(a + [c] + b, c) == [a] + Split(b, c)
    decreases |a|
  {
    if a == [] {
      assert ([c] + b)[1..] == b;
    } else {
      SplitCons(a[1..], b, c);
      assert (a + [c] + b)[1..] == a[1..] + [c] + b;
      assert [a[0]] + a[1..] == a;
    }
  }

  /** A string without the separator is a single piece. */
  lemma {:induction false} SplitNone(a: string, c: char)
    requires c !in a
    ensures Split(a, c) == [a]
    decreases |a|
  {
    if a != [] {
      SplitNone(a[1..], c);
      assert [a[0]] + a[1..] == a;
    }
  }

  /** Joining pieces that hold no separator and splitting again gives the
    * pieces back. */
  lemma {:induction false} SplitJoin(parts: seq<string>, c: char)
    requires |parts| >= 1 && forall k :: 0 <= k < |parts| ==> c !in parts[k]
    ensures Split(Join(parts, c), c) == parts
    decreases |parts|
  {
    if |parts| == 1 {
      SplitNone(parts[0], c);
    } else {
      assert c !in parts[0];
      SplitJoin(parts[1..], c);
      SplitCons(parts[0], Join(parts[1..], c), c);
      assert [parts[0]] + parts[1..] == parts;
    }
  }

  /** `s.replace(c, '')`. */
  function Without(s: string, c: char): (r: string)
    ensures c !in r
    ensures forall x :: x in r <==> x in s && x != c
    ensures |r| <= |s|
  {
    if s == [] then ""
    else (if s[0] == c then "" else [s[0]]) + Without(s[1..], c)
  }

  /** Removing a character that is not there changes nothing. */
  lemma {:induction false} WithoutAbsent(s: string, c: char)
    requires c !in s
    ensures Without(s, c) == s
  {
    if s != [] {
      WithoutAbsent(s[1..], c);
      assert [s[0]] + s[1..] == s;
    }
  }

  /** `'%0*d' % (width, n)`: the decimal digits of `n`, with zeros in front
    * up to `width` characters. */
  function Padded(n: nat, width: nat): (r: string)
    ensures |r| >= width && |r| > 0 && AllDigits(r)
    ensures DigitsValue(r) == n
    decreases width
  {
    var d := NatToString(n);
    if |d| >= width then d
    else
      var p := Padded(n, width - 1);
      LeadingZero(p);
      "0" + p
  }

  /** A zero in front does not change a decimal value. */
  lemma {:induction false} LeadingZero(s: string)
    requires AllDigits(s)
    ensures AllDigits("0" + s) && DigitsValue("0" + s) == DigitsValue(s)
    decreases |s|
  {
    if s != [] {
      var t := "0" + s;
      assert t[..|t| - 1] == "0" + s[..|s| - 1];
      LeadingZero(s[..|s| - 1]);
    }
  }

  /** A number below 10^k has at most k digits; one at least 10^(k-1) has
    * at least k. */
  lemma {:induction false} NatToStringLength(n: nat, k: nat)
    requires k >= 1
    ensures n < Pow10(k) ==> |NatToString(n)| <= k
    ensures n >= Pow10(k - 1) ==> |NatToString(n)| >= k
    decreases n
  {
    if n >= 10 {
      assert |NatToString(n)| == |NatToString(n / 10)| + 1;
      if k >= 2 {
        assert Pow10(k) == 10 * Pow10(k - 1);
        assert Pow10(k - 1) == 10 * Pow10(k - 2) || k == 1;
        NatToStringLength(n / 10, k - 1);
      }
    } else if k >= 2 {
      assert Pow10(k - 1) >= 10 by { assert Pow10(k - 1) == 10 * Pow10(k - 2); }
    }
  }

  function Pow10(k: nat): (r: nat)
    ensures r >= 1
  {
    if k == 0 then 1 else 10 * Pow10(k - 1)
  }

  /** A value that fits in `width` digits is written with exactly `width`
    * characters. */
  lemma {:induction false} PaddedWidth(n: nat, width: nat)
    requires width > 0 && n < Pow10(width)
    ensures |Padded(n, width)| == width
    decreases width
  {
    NatToStringLength(n, width);
    if |NatToString(n)| < width && width > 1 {
      PaddedWidth(n, width - 1);
    }
  }
}
