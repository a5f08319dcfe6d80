/** Machine-level types shared by the SIM800L driver and the control loop. */
module Bytes {

  /** A C `uint8_t`. Arithmetic that wraps in C is written with an explicit `% 256`. */
  type UInt8 = x: int | 0 <= x < 256

  /** A C `char` of the serial buffers: one byte, kept as a character so that
      command templates can be written as string literals. */
  type Byte = c: char | c as int < 256

  const NUL: Byte := 0 as char
  const CR: Byte := '\r'
  const LF: Byte := '\n'
  const QUOTE: Byte := '"'
  const COMMA: Byte := ','
  const COLON: Byte := ':'
  /** Ctrl-Z, which ends the body of a text-mode message. */
  const CTRL_Z: Byte := 26 as char

  datatype Option<T> = None | Some(value: T)

  /** The byte a C assignment `c = n + 0x30` stores: the ASCII digit of `n` when `n < 10`. */
  function DigitChar(n: UInt8): (c: Byte)
    ensures n < 10 ==> '0' <= c <= '9' && c as int - '0' as int == n
  {
    ((n + 0x30) % 256) as char
  }

  /** Index of the first NUL of `s`, or `|s|` when there is none. */
  function NulIndex(s: seq<Byte>): (z: nat)
    ensures z <= |s|
    ensures z < |s| ==> s[z] == NUL
    ensures forall k :: 0 <= k < z ==> s[k] != NUL
  {
    if s == [] then 0
    else if s[0] == NUL then 0
    else 1 + NulIndex(s[1..])
  }

  /** `strncpy(dst, src, n)` reads `src` up to its first NUL or `n` bytes,
      whichever comes first; the read stays inside `src` exactly when this holds. */
  predicate StrNCpyReadable(src: seq<Byte>, n: nat)
  {
    n <= |src| || NulIndex(src) < |src|
  }

  /** The `n` bytes that `strncpy(dst, src, n)` writes into `dst`: the bytes of
      `src` before its first NUL, then NUL padding up to `n`. */
  function StrNCpy(src: seq<Byte>, n: nat): (r: seq<Byte>)
    requires StrNCpyReadable(src, n)
    ensures |r| == n
    ensures forall k :: 0 <= k < n ==> r[k] == if k < NulIndex(src) then src[k] else NUL
  {
    var z := if NulIndex(src) < n then NulIndex(src) else n;
    src[..z] + seq(n - z, _ => NUL)
  }

  /** A string without NUL bytes is copied verbatim when it is exactly `n` long. */
  lemma StrNCpyVerbatim(src: seq<Byte>)
    requires NUL !in src
    ensures StrNCpy(src, |src|) == src
  {
  }

  /** `strncpy(dst + at, src, n)` into a caller's array: writes exactly `n` bytes. */
  method StrNCpyInto(dst: array<Byte>, at: nat, src: seq<Byte>, n: nat)
    requires at + n <= dst.Length && StrNCpyReadable(src, n)
    modifies dst
    ensures dst[..] == old(dst[..at]) + StrNCpy(src, n) + old(dst[at + n..])
  {
    var copy := StrNCpy(src, n);
    forall k | 0 <= k < n {
      dst[at + k] := copy[k];
    }
    assert dst[..] == old(dst[..at]) + copy + old(dst[at + n..]);
  }
}
