/** Decoding of the `ushort[]` string properties WMI reports for a monitor
    (ManufacturerName, ProductCodeID, SerialNumberID). */
module PropertyDataExtensions {
  import opened CSharp

  /** No code unit of `s` is NUL. */
  predicate NulFree(s: seq<ushort>)
  {
    forall i | 0 <= i < |s| :: s[i] != 0
  }

  /** The code units of `chars` before the first NUL; all of them when there
      is no NUL. */
  function NulTerminated(chars: seq<ushort>): (s: CsString)
    ensures |s| <= |chars| && s == chars[..|s|]
    ensures NulFree(s)
    ensures |s| < |chars| ==> chars[|s|] == 0
  {
    if chars == [] || chars[0] == 0 then []
    else [chars[0]] + NulTerminated(chars[1..])
  }

  /** The decoding is the longest NUL-free prefix: any prefix that is NUL-free
      and stops at a NUL or at the end of the array is the decoding. */
  lemma NulTerminatedUnique(chars: seq<ushort>, k: nat)
    requires k <= |chars| && NulFree(chars[..k])
    requires k == |chars| || chars[k] == 0
    ensures NulTerminated(chars) == chars[..k]
  {
    var s := NulTerminated(chars);
    forall j | 0 <= j < k ensures chars[j] != 0 {
      assert chars[..k][j] == chars[j];
    }
    forall j | 0 <= j < |s| ensures chars[j] != 0 {
      assert s[j] == chars[j];
    }
  }

  /** An array without NUL decodes to all of its code units. */
  lemma NulFreeDecodesWhole(chars: seq<ushort>)
    requires NulFree(chars)
    ensures NulTerminated(chars) == chars
  {
    NulTerminatedUnique(chars, |chars|);
  }

  /** An array starting with NUL decodes to the empty string. */
  lemma LeadingNulDecodesEmpty(chars: seq<ushort>)
    requires |chars| > 0 && chars[0] == 0
    ensures NulTerminated(chars) == []
  {
    NulTerminatedUnique(chars, 0);
  }

  /** Round trip: a NUL-free string, terminated by NUL and followed by any
      padding, decodes back to itself. */
  lemma DecodeTerminated(s: CsString, padding: seq<ushort>)
    requires NulFree(s)
    ensures NulTerminated(s + [0] + padding) == s
  {
    var chars := s + [0] + padding;
    assert chars[..|s|] == s;
    NulTerminatedUnique(chars, |s|);
  }

  /** PropertyData.ReadStringFromUInt16ArrayValue: appends code units, each
      unchanged, until the first NUL or the end of the array. */
  method ReadStringFromUInt16ArrayValue(chars: seq<ushort>) returns (s: CsString)
    ensures s == NulTerminated(chars)
  {
    var builder: CsString := [];
    var i := 0;
    while i < |chars| && chars[i] != 0
      invariant 0 <= i <= |chars|
      invariant builder == chars[..i]
      invariant NulFree(builder)
    {
      builder := builder + [chars[i]];
      i := i + 1;
    }
    NulTerminatedUnique(chars, i);
    s := builder;
  }
}
