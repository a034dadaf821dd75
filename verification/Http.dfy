/** Bytes, headers and messages as the ASGI interface passes them. */
module Http {

  datatype Option<+T> = None | Some(value: T)

  newtype byte = x: int | 0 <= x < 256
  type Bytes = seq<byte>

  datatype Header = Header(name: Bytes, value: Bytes)

  /** `bytes.decode("latin-1")`: one character per byte. */
  function Decode(b: Bytes): (s: string)
    ensures |s| == |b| && forall i | 0 <= i < |b| :: s[i] == b[i] as char
  {
    seq(|b|, i requires 0 <= i < |b| => b[i] as char)
  }

  predicate IsLatin1(s: string) { forall i | 0 <= i < |s| :: s[i] as int < 256 }

  /** `str.encode("latin-1")`. */
  function Encode(s: string): (b: Bytes)
    requires IsLatin1(s)
    ensures |b| == |s| && forall i | 0 <= i < |s| :: b[i] as int == s[i] as int
  {
    seq(|s|, i requires 0 <= i < |s| => s[i] as byte)
  }

  lemma EncodeDecode(b: Bytes)
    ensures IsLatin1(Decode(b)) && Encode(Decode(b)) == b
  {
  }

  /** `bytes.lower()`: only the ASCII letters change. */
  function Lower(b: Bytes): Bytes {
    seq(|b|, i requires 0 <= i < |b| => if 65 <= b[i] <= 90 then b[i] + 32 else b[i])
  }

  lemma Regroup<T>(a: seq<T>, b: seq<T>, c: seq<T>)
    ensures (a + b) + c == a + (b + c)
  {
  }
}
