/** Modbus register words: unsigned 16-bit values as they come off the wire,
    and the two's-complement reading the poller and the scanner give them. */
module Words {

  /** A 16-bit register word. */
  type Word = w: int | 0 <= w < 0x1_0000

  /** A value a signed 16-bit register can hold. */
  predicate InSigned16(s: int)
  {
    -0x8000 <= s < 0x8000
  }

  /** Words above 32767 are read as negative: the unique value of the signed
      16-bit range that agrees with the word modulo 2^16. */
  function Signed16(w: Word): (s: int)
    ensures InSigned16(s)
    ensures (w - s) % 0x1_0000 == 0
    ensures InSigned16(w) ==> s == w
  {
    if w > 32767 then w - 65536 else w
  }

  /** The word that encodes a signed 16-bit value. */
  function Unsigned16(s: int): (w: Word)
    requires InSigned16(s)
    ensures (w - s) % 0x1_0000 == 0
    ensures s >= 0 ==> w == s
  {
    if s < 0 then s + 65536 else s
  }

  /** Reading a word as signed loses nothing: encoding the result gives the word back. */
  lemma SignedRoundTrip(w: Word)
    ensures Unsigned16(Signed16(w)) == w
  {
  }

  /** Encoding a signed value and reading it back gives the value. */
  lemma UnsignedRoundTrip(s: int)
    requires InSigned16(s)
    ensures Signed16(Unsigned16(s)) == s
  {
  }

  /** Distinct words stay distinct once read as signed. */
  lemma Signed16Injective(w1: Word, w2: Word)
    ensures Signed16(w1) == Signed16(w2) ==> w1 == w2
  {
    if Signed16(w1) == Signed16(w2) {
      SignedRoundTrip(w1);
      SignedRoundTrip(w2);
    }
  }

  /** Python's `int()` of a float: truncation toward zero. */
  function Trunc(x: real): (n: int)
    ensures x >= 0.0 ==> 0 <= n && n as real <= x < n as real + 1.0
    ensures x < 0.0 ==> n <= 0 && n as real - 1.0 < x <= n as real
  {
    if x >= 0.0 then x.Floor else -((-x).Floor)
  }
}
