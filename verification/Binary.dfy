/** Go strings and machine words as bytes. */
module Binary {
  import opened Wrappers

  type Byte = b: int | 0 <= b < 256
  type Bytes = seq<Byte>

  /** A Go string: a sequence of bytes, written with the characters below 256. */
  type GoString = s: string | forall i | 0 <= i < |s| :: s[i] < 256 as char

  function Raw(s: GoString): Bytes { seq(|s|, i requires 0 <= i < |s| => s[i] as int) }

  function Text(b: Bytes): GoString { seq(|b|, i requires 0 <= i < |b| => b[i] as char) }

  lemma TextOfRaw(s: GoString)
    ensures Text(Raw(s)) == s
  {}

  /** ByteSliceFromString refuses a string with a NUL byte. */
  predicate NoNul(s: GoString) { '\0' !in s }

  function CString(s: GoString): Bytes { Raw(s) + [0] }

  /** A string ends at its only NUL byte, which is the last. */
  function FromCString(b: Bytes): Option<GoString> {
    if b == [] || b[|b| - 1] != 0 || 0 in b[..|b| - 1] then None else Some(Text(b[..|b| - 1]))
  }

  /** A terminated string reads back exactly if it holds no NUL byte. */
  lemma FromCStringOfCString(s: GoString)
    ensures FromCString(CString(s)) == if NoNul(s) then Some(s) else None
  {
    assert CString(s)[..|s|] == Raw(s);
    TextOfRaw(s);
    if !NoNul(s) {
      var i :| 0 <= i < |s| && s[i] == '\0';
      assert Raw(s)[i] == 0;
    }
  }

  /** A 32-bit integer in the little-endian order of the machine. */
  function Le32(v: int): (b: Bytes)
    requires -0x8000_0000 <= v < 0x8000_0000
    ensures |b| == 4
  {
    var u := v % 0x1_0000_0000;
    [u % 256, u / 0x100 % 256, u / 0x1_0000 % 256, u / 0x100_0000 % 256]
  }

  function FromLe32(b: Bytes): int
    requires |b| == 4
  {
    var u := (b[0] as int) + 0x100 * (b[1] as int) + 0x1_0000 * (b[2] as int) + 0x100_0000 * (b[3] as int);
    if u < 0x8000_0000 then u else u - 0x1_0000_0000
  }

  lemma FromLe32OfLe32(v: int)
    requires -0x8000_0000 <= v < 0x8000_0000
    ensures FromLe32(Le32(v)) == v
  {
    var u := v % 0x1_0000_0000;
    assert u / 0x1_0000 == u / 0x100 / 0x100 && u / 0x100_0000 == u / 0x100 / 0x100 / 0x100;
  }

  function Concat(bs: seq<Bytes>): Bytes {
    if bs == [] then [] else Concat(bs[..|bs| - 1]) + bs[|bs| - 1]
  }

  /** Cuts bytes into pieces of n, from the end. */
  function Pieces(b: Bytes, n: nat): Option<seq<Bytes>>
    requires 0 < n
  {
    if b == [] then Some([])
    else if |b| < n then None
    else
      match Pieces(b[..|b| - n], n)
      case None => None
      case Some(front) => Some(front + [b[|b| - n..]])
  }

  lemma {:induction false} PiecesOfConcat(bs: seq<Bytes>, n: nat)
    requires 0 < n && forall i | 0 <= i < |bs| :: |bs[i]| == n
    ensures Pieces(Concat(bs), n) == Some(bs)
  {
    if bs != [] {
      var front, last := bs[..|bs| - 1], bs[|bs| - 1];
      PiecesOfConcat(front, n);
      var b := Concat(bs);
      assert b == Concat(front) + last;
      assert b[..|b| - n] == Concat(front) && b[|b| - n..] == last;
      assert front + [last] == bs;
    }
  }
}
