/** The pieces of C# and .NET semantics the model relies on: fixed-width
    integers with unchecked casts, truncating integer division, strings as
    UTF-16 code units compared ordinally, exceptions as results, and the few
    LINQ/List lookups the source calls. */
module CSharp {

  /** System.Byte */
  type byte = x: int | 0 <= x < 0x100
  /** System.UInt16 */
  type ushort = x: int | 0 <= x < 0x1_0000
  /** A UTF-16 code unit: the value a C# `char` holds. */
  type CodeUnit = ushort
  /** A C# string: a sequence of UTF-16 code units. Equality is ordinal. */
  type CsString = seq<CodeUnit>

  /** The exceptions the modelled code can raise. */
  datatype Exception =
    | DivideByZero         // System.DivideByZeroException
    | NotSupported         // System.NotSupportedException
    | ArgumentOutOfRange   // System.ArgumentOutOfRangeException
    | InvalidOperation     // System.InvalidOperationException
    | Management           // System.Management.ManagementException

  datatype Option<+T> = None | Some(value: T)

  /** A value, or the exception thrown instead of producing it. */
  datatype Result<+T> = Ok(value: T) | Throw(error: Exception)

  /** The unchecked `(byte)` cast from `int`: keeps the low 8 bits. */
  function ToByte(x: int): (r: byte)
    ensures 0 <= x < 0x100 ==> r == x
    ensures (x - r) % 0x100 == 0
  {
    x % 0x100
  }

  /** The unchecked `(ushort)` cast from `int`: keeps the low 16 bits. */
  function ToUShort(x: int): (r: ushort)
    ensures 0 <= x < 0x1_0000 ==> r == x
    ensures (x - r) % 0x1_0000 == 0
  {
    x % 0x1_0000
  }

  function Abs(x: int): nat { if x < 0 then -x else x }

  /** C# integer division `a / b`, which truncates toward zero (Dafny's `/`
      is Euclidean). Division by zero is the caller's to rule out. */
  function Div(a: int, b: int): (q: int)
    requires b != 0
    ensures 0 <= a && 0 < b ==> q == a / b
  {
    if (a < 0) == (b < 0) then Abs(a) / Abs(b) else -(Abs(a) / Abs(b))
  }

  /** Truncating division undoes an exact multiplication, whatever the signs. */
  lemma DivExact(x: int, d: int)
    requires d != 0
    ensures Div(x * d, d) == x
  {
    if x == 0 {
      assert x * d == 0;
    } else if x > 0 && d > 0 {
      assert x * d > 0;
      MulDivCancel(x, d);
    } else if x > 0 {
      assert x * d == -(x * -d) && x * -d > 0;
      MulDivCancel(x, -d);
    } else if d > 0 {
      assert x * d == -(-x * d) && -x * d > 0;
      MulDivCancel(-x, d);
    } else {
      assert x * d == -x * -d && -x * -d > 0;
      MulDivCancel(-x, -d);
    }
  }

  lemma MulDivCancel(m: nat, n: nat)
    requires n > 0
    ensures m * n / n == m
  {
    var q, r := m * n / n, m * n % n;
    assert m * n == q * n + r && 0 <= r < n;
    assert (m - q) * n == r;
    MulBounds(m - q, n);
  }

  lemma MulBounds(k: int, n: int)
    requires n >= 0
    ensures k >= 1 ==> k * n >= n
    ensures k <= -1 ==> k * n <= -n
  {
  }

  /** `value` occurs in `s` at index `i`. */
  predicate OccursAt(s: CsString, value: CsString, i: int)
  {
    0 <= i && i + |value| <= |s| && s[i..i + |value|] == value
  }

  /** string.Contains(string): ordinal substring test. */
  predicate Contains(s: CsString, value: CsString)
  {
    exists i | 0 <= i <= |s| - |value| :: OccursAt(s, value, i)
  }

  /** Every string contains the empty string (string.Contains("") is true). */
  lemma ContainsEmpty(s: CsString)
    ensures Contains(s, [])
  {
    assert OccursAt(s, [], 0);
  }

  /** string.EndsWith(string), read as an ordinal comparison. */
  predicate EndsWith(s: CsString, value: CsString)
  {
    |value| <= |s| && s[|s| - |value|..] == value
  }

  /** string.Replace(char, char): every occurrence of `oldChar` becomes `newChar`. */
  function Replace(s: CsString, oldChar: CodeUnit, newChar: CodeUnit): (r: CsString)
    ensures |r| == |s|
    ensures forall i | 0 <= i < |s| :: r[i] == (if s[i] == oldChar then newChar else s[i])
  {
    seq(|s|, i requires 0 <= i < |s| => if s[i] == oldChar then newChar else s[i])
  }

  /** The code units of an ASCII literal. */
  function Ascii(s: string): (r: CsString)
    ensures |r| == |s|
  {
    seq(|s|, i requires 0 <= i < |s| => (s[i] as int) % 0x1_0000)
  }

  /** `xs` is `ys` with some elements left out, the rest in their order. */
  predicate IsSubsequence<T(==)>(xs: seq<T>, ys: seq<T>)
    decreases |ys|
  {
    xs == [] || (ys != [] && ((xs[0] == ys[0] && IsSubsequence(xs[1..], ys[1..])) || IsSubsequence(xs, ys[1..])))
  }

  /** Index of the first element satisfying `p`, or `|s|` when there is none. */
  function FirstIndex<T>(s: seq<T>, p: T -> bool): (i: nat)
    ensures i <= |s|
    ensures forall j | 0 <= j < i :: !p(s[j])
    ensures i < |s| ==> p(s[i])
  {
    if s == [] then 0
    else if p(s[0]) then 0
    else 1 + FirstIndex(s[1..], p)
  }

  /** List<T>.Find: the first element satisfying `p`, if any. */
  function Find<T>(s: seq<T>, p: T -> bool): (r: Option<T>)
    ensures r.None? <==> forall j | 0 <= j < |s| :: !p(s[j])
    ensures r.Some? ==> exists i | 0 <= i < |s| :: s[i] == r.value && p(s[i]) && forall j | 0 <= j < i :: !p(s[j])
  {
    var i := FirstIndex(s, p);
    if i < |s| then Some(s[i]) else None
  }

  /** Number of elements of `s` satisfying `p`. */
  function Count<T>(s: seq<T>, p: T -> bool): (n: nat)
    ensures n <= |s|
    ensures n == 0 <==> forall j | 0 <= j < |s| :: !p(s[j])
  {
    if s == [] then 0 else (if p(s[0]) then 1 else 0) + Count(s[1..], p)
  }

  /** Enumerable.SingleOrDefault(predicate): the default (None) when no element
      matches, the element when exactly one does, and InvalidOperationException
      when several do. */
  function SingleOrDefault<T>(s: seq<T>, p: T -> bool): (r: Result<Option<T>>)
    ensures r.Ok? <==> Count(s, p) <= 1
    ensures r.Throw? ==> r.error == InvalidOperation
    ensures r == Ok(None) <==> forall j | 0 <= j < |s| :: !p(s[j])
    ensures r.Ok? && r.value.Some? ==> exists i | 0 <= i < |s| :: s[i] == r.value.value && p(s[i])
  {
    var n := Count(s, p);
    if n == 0 then Ok(None)
    else if n == 1 then Ok(Some(s[FirstIndex(s, p)]))
    else Throw(InvalidOperation)
  }
}
