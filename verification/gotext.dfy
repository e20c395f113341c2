/** The two pieces of Go's standard library that the renderer relies on for its
    own text: strings.Join (the URL list) and the %d verb of fmt (the published
    database port). */
module GoText {

  /** strings.Join: the elements in order, with `sep` between neighbours. */
  function Join(xs: seq<string>, sep: string): string
  {
    if |xs| == 0 then ""
    else if |xs| == 1 then xs[0]
    else xs[0] + sep + Join(xs[1..], sep)
  }

  /** The position at which xs[i] starts inside Join(xs, sep). */
  function Offset(xs: seq<string>, sep: string, i: nat): nat
    requires i <= |xs|
    decreases i
  {
    if i == 0 then 0 else |xs[0]| + |sep| + Offset(xs[1..], sep, i - 1)
  }

  /** `t` occurs in `s` at position `k`. */
  predicate OccursAt(s: string, k: nat, t: string)
  {
    k + |t| <= |s| && s[k..k + |t|] == t
  }

  lemma OccursAtStart(a: string, b: string)
    ensures OccursAt(a + b, 0, a)
  {
    assert (a + b)[..|a|] == a;
  }

  lemma OccursAfter(a: string, b: string, k: nat, t: string)
    requires OccursAt(b, k, t)
    ensures OccursAt(a + b, |a| + k, t)
  {
    assert (a + b)[|a| + k..|a| + k + |t|] == b[k..k + |t|];
  }

  /** Each element sits at its offset. */
  lemma {:induction false} JoinAt(xs: seq<string>, sep: string, i: nat)
    requires i < |xs|
    ensures OccursAt(Join(xs, sep), Offset(xs, sep, i), xs[i])
    decreases i
  {
    if |xs| == 1 {
      OccursAtStart(xs[0], "");
      assert xs[0] + "" == xs[0];
    } else {
      var head := xs[0] + sep;
      var tail := Join(xs[1..], sep);
      assert Join(xs, sep) == xs[0] + (sep + tail);
      if i == 0 {
        OccursAtStart(xs[0], sep + tail);
      } else {
        JoinAt(xs[1..], sep, i - 1);
        assert xs[1..][i - 1] == xs[i];
        OccursAfter(head, tail, Offset(xs[1..], sep, i - 1), xs[i]);
      }
    }
  }

  /** Every element but the last is followed by the separator. */
  lemma {:induction false} JoinSeparatorAt(xs: seq<string>, sep: string, i: nat)
    requires i + 1 < |xs|
    ensures OccursAt(Join(xs, sep), Offset(xs, sep, i) + |xs[i]|, sep)
    decreases i
  {
    var head := xs[0] + sep;
    var tail := Join(xs[1..], sep);
    assert Join(xs, sep) == head + tail;
    if i == 0 {
      OccursAtStart(sep, tail);
      OccursAfter(xs[0], sep + tail, 0, sep);
    } else {
      JoinSeparatorAt(xs[1..], sep, i - 1);
      assert xs[1..][i - 1] == xs[i];
      OccursAfter(head, tail, Offset(xs[1..], sep, i - 1) + |xs[i]|, sep);
    }
  }

  /** The last element ends the joined string. */
  lemma {:induction false} JoinEnd(xs: seq<string>, sep: string)
    requires |xs| > 0
    ensures Offset(xs, sep, |xs| - 1) + |xs[|xs| - 1]| == |Join(xs, sep)|
    decreases |xs|
  {
    if |xs| > 1 {
      JoinEnd(xs[1..], sep);
      assert xs[1..][|xs| - 2] == xs[|xs| - 1];
    }
  }

  /** Consecutive offsets are one element and one separator apart. */
  lemma {:induction false} OffsetStep(xs: seq<string>, sep: string, i: nat)
    requires i < |xs|
    ensures Offset(xs, sep, i + 1) == Offset(xs, sep, i) + |xs[i]| + |sep|
    decreases i
  {
    if i > 0 {
      OffsetStep(xs[1..], sep, i - 1);
      assert xs[1..][i - 1] == xs[i];
    }
  }

  /** Join keeps the input order: an earlier element, and the separator after
      it, end before any later element starts. */
  lemma {:induction false} JoinKeepsOrder(xs: seq<string>, sep: string, i: nat, j: nat)
    requires i < j < |xs|
    ensures Offset(xs, sep, i) + |xs[i]| + |sep| <= Offset(xs, sep, j)
    decreases j - i
  {
    OffsetStep(xs, sep, i);
    if i + 1 < j {
      JoinKeepsOrder(xs, sep, i + 1, j);
      OffsetStep(xs, sep, i + 1);
    }
  }

  predicate IsDigit(c: char)
  {
    '0' <= c <= '9'
  }

  predicate IsDigits(s: string)
  {
    forall i :: 0 <= i < |s| ==> IsDigit(s[i])
  }

  function DigitChar(d: nat): (c: char)
    requires d < 10
    ensures IsDigit(c)
    ensures c == '0' <==> d == 0
  {
    ('0' as int + d) as char
  }

  function DigitValue(c: char): (d: nat)
    requires IsDigit(c)
    ensures d < 10 && DigitChar(d) == c
  {
    c as int - '0' as int
  }

  /** fmt's %d verb on a non-negative integer: decimal digits, no leading zero. */
  function Decimal(n: nat): (s: string)
    ensures |s| > 0 && IsDigits(s)
    ensures s[0] == '0' <==> n == 0
    decreases n
  {
    if n < 10 then [DigitChar(n)] else Decimal(n / 10) + [DigitChar(n % 10)]
  }

  /** Reads a string of decimal digits back as a number. */
  function ParseDecimal(s: string): nat
    requires IsDigits(s)
    decreases |s|
  {
    if s == [] then 0 else 10 * ParseDecimal(s[..|s| - 1]) + DigitValue(s[|s| - 1])
  }

  /** The digits %d prints read back as the number printed. */
  lemma {:induction false} DecimalRoundTrip(n: nat)
    ensures ParseDecimal(Decimal(n)) == n
    decreases n
  {
    var s := Decimal(n);
    if n < 10 {
      assert s[..|s| - 1] == [];
    } else {
      DecimalRoundTrip(n / 10);
      assert s[..|s| - 1] == Decimal(n / 10);
      assert DigitValue(s[|s| - 1]) == n % 10;
    }
  }
}
