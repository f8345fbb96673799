/** Shared vocabulary: optional values, results, Python's `str.join`, and the
    decimal rendering / parsing of integers (`'%d' % n` and `int(s)`). */
module Common {

  datatype Option<+T> = None | Some(value: T)

  datatype Result<+T, +E> = Success(value: T) | Failure(error: E)

  /** `sep.join(parts)`, written so that appending one part unfolds directly. */
  function JoinWith(sep: string, parts: seq<string>): string
  {
    if |parts| == 0 then ""
    else if |parts| == 1 then parts[0]
    else JoinWith(sep, parts[..|parts| - 1]) + sep + parts[|parts| - 1]
  }

  /** Joining two non-empty lists puts exactly one separator between them. */
  lemma {:induction false} JoinWithAppend(sep: string, xs: seq<string>, ys: seq<string>)
    requires |xs| > 0 && |ys| > 0
    ensures JoinWith(sep, xs + ys) == JoinWith(sep, xs) + sep + JoinWith(sep, ys)
    decreases |ys|
  {
    var zs := xs + ys;
    if |ys| == 1 {
      assert zs[..|zs| - 1] == xs;
    } else {
      var ys' := ys[..|ys| - 1];
      assert zs[..|zs| - 1] == xs + ys';
      JoinWithAppend(sep, xs, ys');
    }
  }

  /** `s.rfind(c)`: the index of the last `c` in `s`, or -1 when there is none. */
  function RFind(s: string, c: char): (i: int)
    ensures -1 <= i < |s|
  {
    if |s| == 0 then -1
    else if s[|s| - 1] == c then |s| - 1
    else RFind(s[..|s| - 1], c)
  }

  lemma {:induction false} RFindIsLast(s: string, c: char)
    ensures var i := RFind(s, c);
      && -1 <= i < |s|
      && (i >= 0 ==> s[i] == c)
      && forall j :: i < j < |s| ==> s[j] != c
  {
    if |s| > 0 && s[|s| - 1] != c {
      RFindIsLast(s[..|s| - 1], c);
    }
  }

  /** `s.find(c)`: the index of the first `c` in `s`, or -1 when there is none. */
  function Find(s: string, c: char): int
  {
    if |s| == 0 then -1
    else if s[0] == c then 0
    else
      var k := Find(s[1..], c);
      if k < 0 then -1 else k + 1
  }

  lemma {:induction false} FindIsFirst(s: string, c: char)
    ensures var i := Find(s, c);
      && -1 <= i < |s|
      && (i >= 0 ==> s[i] == c)
      && forall j :: 0 <= j < |s| && (i < 0 || j < i) ==> s[j] != c
  {
    if |s| > 0 && s[0] != c {
      FindIsFirst(s[1..], c);
    }
  }

  /** Apply `f` to every element, keeping the order (a Python generator over a list). */
  function Map<A, B>(f: A -> B, xs: seq<A>): (r: seq<B>)
    ensures |r| == |xs|
    ensures forall i :: 0 <= i < |xs| ==> r[i] == f(xs[i])
  {
    seq(|xs|, i requires 0 <= i < |xs| => f(xs[i]))
  }

  function DigitChar(d: nat): char
    requires d < 10
  {
    ['0', '1', '2', '3', '4', '5', '6', '7', '8', '9'][d]
  }

  predicate IsDigit(c: char)
  {
    '0' <= c <= '9'
  }

  /** `'%d' % n` for a non-negative integer. */
  function Decimal(n: nat): (s: string)
    ensures |s| > 0
    ensures forall i :: 0 <= i < |s| ==> IsDigit(s[i])
  {
    if n < 10 then [DigitChar(n)] else Decimal(n / 10) + [DigitChar(n % 10)]
  }

  /** The value of a non-empty run of decimal digits. */
  function DigitsValue(s: string): nat
    requires forall i :: 0 <= i < |s| ==> IsDigit(s[i])
  {
    if |s| == 0 then 0
    else
      assert IsDigit(s[|s| - 1]);
      DigitsValue(s[..|s| - 1]) * 10 + (s[|s| - 1] as int - '0' as int)
  }

  predicate AllDigits(s: string)
  {
    |s| > 0 && forall i :: 0 <= i < |s| ==> IsDigit(s[i])
  }

  /** `int(s)`: an optional sign followed by decimal digits; None where Python
      raises ValueError. */
  function ParseInt(s: string): Option<int>
  {
    if |s| > 0 && (s[0] == '-' || s[0] == '+') then
      if AllDigits(s[1..]) then
        var v: int := DigitsValue(s[1..]);
        Some(if s[0] == '-' then -v else v)
      else None
    else if AllDigits(s) then Some(DigitsValue(s))
    else None
  }

  lemma {:induction false} DigitsValueOfDecimal(n: nat)
    ensures DigitsValue(Decimal(n)) == n
  {
    if n >= 10 {
      var s := Decimal(n);
      assert s[..|s| - 1] == Decimal(n / 10);
      DigitsValueOfDecimal(n / 10);
    } else {
      assert DigitChar(n) as int - '0' as int == n;
    }
  }

  /** Reading back the decimal text of a number gives the number. */
  lemma ParseDecimal(n: nat)
    ensures ParseInt(Decimal(n)) == Some(n)
  {
    DigitsValueOfDecimal(n);
  }
}
