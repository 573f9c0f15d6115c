/**
 * String helpers the pages rely on: the first line of a message
 * (`strings.Split(msg, "\n")[0]`), joining names with a separator
 * (`strings.Join`), its inverse for the ", " separator, and the decimal
 * rendering of a natural number (`fmt.Sprintf("%d", n)`).
 */
module Text {

  /** The text before the first newline of `s`, or all of `s` if it has none. */
  function FirstLine(s: string): (r: string)
    ensures '\n' !in r
    ensures |r| <= |s| && r == s[..|r|]
    ensures |r| < |s| ==> s[|r|] == '\n'
  {
    if s == [] || s[0] == '\n' then "" else [s[0]] + FirstLine(s[1..])
  }

  /** A line with no newline, followed by a newline and anything, has that line as its first line. */
  lemma {:induction false} FirstLineOfLines(line: string, rest: string)
    requires '\n' !in line
    ensures FirstLine(line + "\n" + rest) == line
  {
    if line != [] {
      assert (line + "\n" + rest)[1..] == line[1..] + "\n" + rest;
      FirstLineOfLines(line[1..], rest);
    }
  }

  /** `strings.Join`: the elements of `xs` with `sep` between consecutive ones. */
  function Join(xs: seq<string>, sep: string): (r: string)
    ensures xs == [] ==> r == ""
    ensures |xs| == 1 ==> r == xs[0]
    ensures xs != [] ==> |xs[0]| <= |r| && r[..|xs[0]|] == xs[0]
  {
    if xs == [] then ""
    else if |xs| == 1 then xs[0]
    else xs[0] + sep + Join(xs[1..], sep)
  }

  /** Appending an element to a non-empty list appends the separator and that element to the join. */
  lemma {:induction false} JoinAppend(xs: seq<string>, x: string, sep: string)
    requires xs != []
    ensures Join(xs + [x], sep) == Join(xs, sep) + sep + x
  {
    if |xs| == 1 {
      assert xs + [x] == [xs[0], x];
    } else {
      assert (xs + [x])[1..] == xs[1..] + [x];
      JoinAppend(xs[1..], x, sep);
    }
  }

  /** The separator the bundle summary uses. */
  const ListSeparator := ", "

  /** `s` does not contain the list separator ", ". */
  predicate NoListSeparator(s: string) {
    forall i :: 0 <= i < |s| - 1 ==> !(s[i] == ',' && s[i + 1] == ' ')
  }

  /** Splits `s` at every occurrence of ", ", scanning left to right. */
  function SplitList(s: string): (r: seq<string>)
    ensures |r| >= 1
    decreases |s|
  {
    if |s| >= 2 && s[0] == ',' && s[1] == ' ' then [""] + SplitList(s[2..])
    else if s == [] then [""]
    else
      var rest := SplitList(s[1..]);
      [[s[0]] + rest[0]] + rest[1..]
  }

  /** Text without a separator glues onto the first piece of what follows it. */
  lemma {:induction false} SplitListPrefix(x: string, t: string)
    requires NoListSeparator(x)
    requires t == [] || t[0] != ' '
    ensures SplitList(x + t) == [x + SplitList(t)[0]] + SplitList(t)[1..]
    decreases |x|
  {
    if x == [] {
      var r := SplitList(t);
      assert x + t == t && x + r[0] == r[0];
      assert [r[0]] + r[1..] == r;
    } else {
      var s := x + t;
      assert s[1..] == x[1..] + t;
      assert NoListSeparator(x[1..]) by {
        forall i | 0 <= i < |x[1..]| - 1
          ensures !(x[1..][i] == ',' && x[1..][i + 1] == ' ')
        {
          assert x[1..][i] == x[i + 1] && x[1..][i + 1] == x[i + 2];
        }
      }
      SplitListPrefix(x[1..], t);
      assert !(|s| >= 2 && s[0] == ',' && s[1] == ' ') by {
        if |x| >= 2 {
          assert s[1] == x[1];
        } else {
          assert |s| >= 2 ==> s[1] == t[0];
        }
      }
      assert [s[0]] + (x[1..] + SplitList(t)[0]) == x + SplitList(t)[0];
    }
  }

  /** Splitting a ", "-joined list gives the list back, when no element contains ", ". */
  lemma {:induction false} SplitJoin(xs: seq<string>)
    requires |xs| >= 1
    requires forall i :: 0 <= i < |xs| ==> NoListSeparator(xs[i])
    ensures SplitList(Join(xs, ListSeparator)) == xs
  {
    if |xs| == 1 {
      SplitListPrefix(xs[0], "");
      assert xs[0] + "" == xs[0];
    } else {
      var t := ListSeparator + Join(xs[1..], ListSeparator);
      SplitJoin(xs[1..]);
      assert t[2..] == Join(xs[1..], ListSeparator);
      assert SplitList(t) == [""] + xs[1..];
      SplitListPrefix(xs[0], t);
      assert xs[0] + ListSeparator + Join(xs[1..], ListSeparator) == xs[0] + t;
      assert xs[0] + "" == xs[0];
      assert [xs[0]] + xs[1..] == xs;
    }
  }

  /** The decimal digit for `d`. */
  function Digit(d: nat): (c: char)
    requires d < 10
    ensures '0' <= c <= '9' && c as int - '0' as int == d
  {
    "0123456789"[d]
  }

  /** The decimal rendering of `n`, without leading zeros. */
  function NatToString(n: nat): (r: string)
    ensures |r| >= 1 && IsDigits(r)
    ensures n < 10 <==> |r| == 1
    ensures n > 0 ==> r[0] != '0'
    ensures r[|r| - 1] == Digit(n % 10)
    decreases n
  {
    if n < 10 then [Digit(n)] else NatToString(n / 10) + [Digit(n % 10)]
  }

  /** Every character is a decimal digit. */
  predicate IsDigits(s: string) {
    forall i :: 0 <= i < |s| ==> '0' <= s[i] <= '9'
  }

  /** The number a string of decimal digits denotes, most significant digit first. */
  function DecimalValue(s: string): nat
    requires IsDigits(s)
  {
    if s == [] then 0
    else DecimalValue(s[..|s| - 1]) * 10 + (s[|s| - 1] as int - '0' as int)
  }

  /** Reading the rendering of `n` back as a decimal number gives `n`. */
  lemma {:induction false} DecimalValueOfNatToString(n: nat)
    ensures DecimalValue(NatToString(n)) == n
    decreases n
  {
    var r := NatToString(n);
    if n >= 10 {
      DecimalValueOfNatToString(n / 10);
      assert r[..|r| - 1] == NatToString(n / 10);
    }
  }

  /** Distinct numbers have distinct renderings. */
  lemma {:induction false} NatToStringInjective(a: nat, b: nat)
    requires NatToString(a) == NatToString(b)
    ensures a == b
    decreases a
  {
    var s := NatToString(a);
    assert Digit(a % 10) == Digit(b % 10);
    if a >= 10 {
      assert b >= 10;
      assert NatToString(a / 10) == s[..|s| - 1] == NatToString(b / 10);
      NatToStringInjective(a / 10, b / 10);
    }
  }
}
