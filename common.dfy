/** Shared vocabulary of the model: Python's exceptions as an error type, a
    result type for operations that raise, IEEE floats with NaN, and the
    Python built-ins (indexing, slicing, `max`, `str.strip`, `int(str)`)
    whose exact semantics the core relies on. */
module Common {

  /** The Python exception classes the core can raise. */
  datatype Error =
    | IndexError
    | KeyError
    | TypeError
    | ValueError
    | AttributeError
    | UnboundLocalError
    | ZeroDivisionError
    | AssertionError

  datatype Option<+T> = None | Some(value: T)

  /** Either the value an operation returns or the exception it raises. */
  datatype Result<+T> = Ok(value: T) | Err(error: Error) {
    predicate IsFailure() { Err? }
    function PropagateFailure<U>(): Result<U>
      requires Err?
    {
      Err(error)
    }
    function Extract(): T
      requires Ok?
    {
      value
    }
  }

  /** A Python float: a finite value or NaN (infinities are not modelled). */
  datatype Float = Num(x: real) | NaN

  /** IEEE comparisons: every comparison involving NaN is false. */
  predicate Lt(a: Float, b: Float) { a.Num? && b.Num? && a.x < b.x }
  predicate Le(a: Float, b: Float) { a.Num? && b.Num? && a.x <= b.x }
  predicate Gt(a: Float, b: Float) { Lt(b, a) }
  predicate Eq(a: Float, b: Float) { a.Num? && b.Num? && a.x == b.x }

  /** `c * a` for a Python float constant `c`; NaN propagates. */
  function Scale(c: real, a: Float): (r: Float)
    ensures r.NaN? <==> a.NaN?
  {
    if a.NaN? then NaN else Num(c * a.x)
  }

  predicate NoNaN(s: seq<Float>) { forall i :: 0 <= i < |s| ==> s[i].Num? }

  /** r is obtained from a by deleting elements (order is kept). */
  predicate IsSubsequence<T(==)>(r: seq<T>, a: seq<T>)
    decreases |a|
  {
    if a == [] then r == []
    else IsSubsequence(r, a[1..]) || (r != [] && r[0] == a[0] && IsSubsequence(r[1..], a[1..]))
  }

  /** The number of true entries. */
  function CountTrue(mask: seq<bool>): nat {
    if mask == [] then 0 else (if mask[0] then 1 else 0) + CountTrue(mask[1..])
  }

  /** The entries of a where mask is true, in order (`a[mask]`, or a loop
      appending the items that pass a test). */
  function Select<T>(a: seq<T>, mask: seq<bool>): (r: seq<T>)
    requires |a| == |mask|
    ensures |r| == CountTrue(mask)
  {
    if a == [] then [] else (if mask[0] then [a[0]] else []) + Select(a[1..], mask[1..])
  }

  /** Selecting deletes entries and keeps their order. */
  lemma {:induction false} SelectIsSubsequence<T>(a: seq<T>, mask: seq<bool>)
    requires |a| == |mask|
    ensures IsSubsequence(Select(a, mask), a)
    decreases |a|
  {
    if a != [] {
      SelectIsSubsequence(a[1..], mask[1..]);
      if mask[0] {
        var r := Select(a, mask);
        assert r[0] == a[0] && r[1..] == Select(a[1..], mask[1..]);
      } else {
        assert Select(a, mask) == Select(a[1..], mask[1..]);
      }
    }
  }

  /** One more item with its flag: the loop step of a filtering loop. */
  lemma {:induction false} SelectAppend<T>(a: seq<T>, mask: seq<bool>, x: T, flag: bool)
    requires |a| == |mask|
    ensures Select(a + [x], mask + [flag]) == Select(a, mask) + (if flag then [x] else [])
    decreases |a|
  {
    if a == [] {
      assert [x][1..] == [] && [flag][1..] == [];
    } else {
      assert (a + [x])[1..] == a[1..] + [x];
      assert (mask + [flag])[1..] == mask[1..] + [flag];
      SelectAppend(a[1..], mask[1..], x, flag);
    }
  }

  function Min(a: int, b: int): (m: int)
    ensures m <= a && m <= b && (m == a || m == b)
  {
    if a <= b then a else b
  }

  /** `s[i]` in Python: a negative index counts from the end. */
  function PyIndex<T>(s: seq<T>, i: int): (r: Result<T>)
    ensures r.Ok? <==> -|s| <= i < |s|
    ensures r.Err? ==> r.error == IndexError
    ensures 0 <= i < |s| ==> r.value == s[i]
  {
    if 0 <= i < |s| then Ok(s[i])
    else if -|s| <= i < 0 then Ok(s[|s| + i])
    else Err(IndexError)
  }

  /** A slice bound as Python normalises it for a sequence of length n. */
  function SliceBound(i: int, n: nat): (k: nat)
    ensures k <= n
    ensures 0 <= i <= n ==> k == i
  {
    var j := if i < 0 then i + n else i;
    if j < 0 then 0 else if j > n then n else j
  }

  /** `s[lo:hi]` in Python. */
  function PySlice<T>(s: seq<T>, lo: int, hi: int): (r: seq<T>)
    ensures 0 <= lo <= hi <= |s| ==> r == s[lo..hi]
    ensures |r| <= |s|
  {
    var a := SliceBound(lo, |s|);
    var b := SliceBound(hi, |s|);
    if a <= b then s[a..b] else []
  }

  /** Python's built-in `max` over a float sequence: it keeps the first item
      and replaces it by each later item that compares greater. */
  function PyMax(s: seq<Float>): (r: Result<Float>)
    ensures r.Err? <==> s == []
    ensures r.Err? ==> r.error == ValueError
  {
    if s == [] then Err(ValueError) else Ok(MaxFrom(s[0], s[1..]))
  }

  function MaxFrom(cur: Float, rest: seq<Float>): Float
    decreases |rest|
  {
    if rest == [] then cur
    else MaxFrom(if Gt(rest[0], cur) then rest[0] else cur, rest[1..])
  }

  lemma {:induction false} MaxFromIsMaximum(cur: Float, rest: seq<Float>)
    requires cur.Num? && NoNaN(rest)
    ensures MaxFrom(cur, rest) == cur || MaxFrom(cur, rest) in rest
    ensures MaxFrom(cur, rest).Num? && cur.x <= MaxFrom(cur, rest).x
    ensures forall i :: 0 <= i < |rest| ==> rest[i].x <= MaxFrom(cur, rest).x
    decreases |rest|
  {
    if rest != [] {
      var next := if Gt(rest[0], cur) then rest[0] else cur;
      MaxFromIsMaximum(next, rest[1..]);
      forall i | 1 <= i < |rest| ensures rest[i].x <= MaxFrom(cur, rest).x {
        assert rest[i] == rest[1..][i - 1];
      }
    }
  }

  /** Without NaN, `max` returns an element that no element exceeds. */
  lemma PyMaxIsMaximum(s: seq<Float>)
    requires s != [] && NoNaN(s)
    ensures PyMax(s).Ok? && PyMax(s).value in s
    ensures forall i :: 0 <= i < |s| ==> Le(s[i], PyMax(s).value)
  {
    MaxFromIsMaximum(s[0], s[1..]);
    forall i | 0 <= i < |s| ensures Le(s[i], PyMax(s).value) {
      if i > 0 { assert s[i] == s[1..][i - 1]; }
    }
  }

  /** Python's `str.isspace` for a single character: tab to carriage
      return, the separators 0x1C-0x1F, space, NEL, no-break space, and the
      Unicode space separators. */
  predicate IsSpace(c: char) {
    || ('\t' <= c <= '\r') || ('\U{1C}' <= c <= ' ') || c == '\U{85}' || c == '\U{A0}' || c == '\U{1680}'
    || ('\U{2000}' <= c <= '\U{200A}') || c == '\U{2028}' || c == '\U{2029}' || c == '\U{202F}' || c == '\U{205F}'
    || c == '\U{3000}'
  }

  predicate IsBlank(s: string) { forall i :: 0 <= i < |s| ==> IsSpace(s[i]) }

  /** `s.strip()`: drop leading and trailing whitespace. */
  function Strip(s: string): (r: string)
    ensures |r| <= |s|
    ensures r == "" <==> IsBlank(s)
    ensures r != "" ==> !IsSpace(r[0]) && !IsSpace(r[|r| - 1])
  {
    RStrip(LStrip(s))
  }

  function LStrip(s: string): (r: string)
    ensures |r| <= |s| && r == s[|s| - |r|..]
    ensures r == "" <==> IsBlank(s)
    ensures r != "" ==> !IsSpace(r[0])
  {
    if s != [] && IsSpace(s[0]) then LStrip(s[1..]) else s
  }

  function RStrip(s: string): (r: string)
    ensures |r| <= |s| && r == s[..|r|]
    ensures r == "" <==> IsBlank(s)
    ensures r != "" ==> !IsSpace(r[|r| - 1])
  {
    if s != [] && IsSpace(s[|s| - 1]) then RStrip(s[..|s| - 1]) else s
  }

  predicate IsDigit(c: char) { '0' <= c <= '9' }
  predicate AllDigits(s: string) { forall i :: 0 <= i < |s| ==> IsDigit(s[i]) }

  function DigitsValue(s: string): nat
    requires AllDigits(s)
  {
    if s == [] then 0
    else DigitsValue(s[..|s| - 1]) * 10 + (s[|s| - 1] as int - '0' as int)
  }

  /** `int(s)` on a decimal literal: surrounding whitespace, an optional sign,
      then at least one digit; anything else raises ValueError. */
  function ParseInt(s: string): (r: Result<int>)
    ensures r.Err? ==> r.error == ValueError
  {
    ParseSigned(Strip(s))
  }

  /** An optional sign followed by at least one digit. */
  function ParseSigned(t: string): (r: Result<int>)
    ensures r.Err? ==> r.error == ValueError
  {
    var negative := t != "" && t[0] == '-';
    var digits := if t != "" && (t[0] == '-' || t[0] == '+') then t[1..] else t;
    if digits == "" || !AllDigits(digits) then Err(ValueError)
    else
      var v: int := DigitsValue(digits);
      Ok(if negative then -v else v)
  }

  /** `str(n)` for an integer. */
  function IntToString(n: int): (s: string)
  {
    if n < 0 then "-" + NatToString(-n) else NatToString(n)
  }

  function NatToString(n: nat): (s: string)
    ensures s != "" && AllDigits(s)
  {
    if n < 10 then [('0' as int + n) as char]
    else NatToString(n / 10) + [('0' as int + n % 10) as char]
  }

  lemma {:induction false} NatToStringValue(n: nat)
    ensures DigitsValue(NatToString(n)) == n
  {
    var s := NatToString(n);
    if n >= 10 {
      NatToStringValue(n / 10);
      assert s[..|s| - 1] == NatToString(n / 10);
    }
  }

  lemma StripKeepsTrimmed(s: string)
    requires s != "" && !IsSpace(s[0]) && !IsSpace(s[|s| - 1])
    ensures Strip(s) == s
  {
    assert LStrip(s) == s;
  }

  lemma DigitNotSpace(c: char)
    requires IsDigit(c)
    ensures !IsSpace(c) && c != '-' && c != '+'
  {
  }

  /** A sign and a digit string parse to the digits' value. */
  lemma SignedDigits(d: string, negative: bool)
    requires d != "" && AllDigits(d)
    ensures ParseSigned(if negative then "-" + d else d)
         == Ok(if negative then -(DigitsValue(d) as int) else DigitsValue(d))
  {
    if negative {
      var s := "-" + d;
      assert s[0] == '-' && s[1..] == d;
    } else {
      DigitNotSpace(d[0]);
    }
  }

  lemma ParseDigits(d: string, negative: bool)
    requires d != "" && AllDigits(d)
    ensures ParseInt(if negative then "-" + d else d)
         == Ok(if negative then -(DigitsValue(d) as int) else DigitsValue(d))
  {
    var s := if negative then "-" + d else d;
    DigitNotSpace(d[0]);
    DigitNotSpace(d[|d| - 1]);
    assert s[|s| - 1] == d[|d| - 1];
    assert s[0] == '-' || s[0] == d[0];
    StripKeepsTrimmed(s);
    SignedDigits(d, negative);
  }

  /** `int(str(n)) == n`: the integer parser inverts integer printing. */
  lemma ParseIntRoundTrip(n: int)
    ensures ParseInt(IntToString(n)) == Ok(n)
  {
    var m: nat := if n < 0 then -n else n;
    NatToStringValue(m);
    ParseDigits(NatToString(m), n < 0);
  }
}
