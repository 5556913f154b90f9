/** Machine integers, and the nonces both ends of a circuit derive from a base nonce and a 64-bit counter. */
module MachineInts {
  const TWO_TO_64: int := 0x1_0000_0000_0000_0000

  type byte = x: int | 0 <= x < 256
  type uint16 = x: int | 0 <= x < 0x1_0000
  type uint64 = x: int | 0 <= x < TWO_TO_64

  /** The increment of an unsigned 64-bit counter, which wraps around. */
  function Inc(c: uint64): uint64 {
    (c + 1) % TWO_TO_64
  }

  /** The value an unsigned 64-bit counter holds after `k` increments from 0. */
  function Wrap(k: nat): uint64 {
    k % TWO_TO_64
  }

  lemma IncWrap(k: nat)
    ensures Inc(Wrap(k)) == Wrap(k + 1)
  {
  }
}

module Nonces {
  import opened MachineInts

  type Nonce = s: seq<byte> | |s| == 12 witness seq(12, _ => 0)

  /** Bitwise exclusive or of two numbers below 2^bits. */
  function Xor(bits: nat, a: nat, b: nat): nat {
    if bits == 0 then 0 else (a + b) % 2 + 2 * Xor(bits - 1, a / 2, b / 2)
  }

  function Pow2(k: nat): nat {
    if k == 0 then 1 else 2 * Pow2(k - 1)
  }

  lemma {:induction false} XorBounded(bits: nat, a: nat, b: nat)
    ensures Xor(bits, a, b) < Pow2(bits)
  {
    if bits > 0 {
      XorBounded(bits - 1, a / 2, b / 2);
    }
  }

  lemma LowBit(bit: nat, r: nat)
    requires bit < 2
    ensures (bit + 2 * r) / 2 == r && (bit + 2 * r) % 2 == bit
  {
  }

  /** Binary digit `k` of a number, counted from the lowest. */
  function Bit(a: nat, k: nat): bool {
    if k == 0 then a % 2 == 1 else Bit(a / 2, k - 1)
  }

  /** It is the exclusive or: a digit of the result is 1 exactly if the two digits differ. */
  lemma {:induction false} XorBits(bits: nat, a: nat, b: nat, k: nat)
    requires k < bits
    ensures Bit(Xor(bits, a, b), k) <==> Bit(a, k) != Bit(b, k)
  {
    LowBit((a + b) % 2, Xor(bits - 1, a / 2, b / 2));
    if k > 0 {
      XorBits(bits - 1, a / 2, b / 2, k - 1);
    }
  }

  lemma {:induction false} XorZero(bits: nat, a: nat)
    requires a < Pow2(bits)
    ensures Xor(bits, a, 0) == a
  {
    if bits > 0 {
      XorZero(bits - 1, a / 2);
    }
  }

  lemma BitBack(a: nat, b: nat, x: nat)
    requires x % 2 == (a + b) % 2
    ensures (x + b) % 2 == a % 2
  {
  }

  /** Applying the same mask twice gives the number back: the loop below undoes itself. */
  lemma {:induction false} XorCancels(bits: nat, a: nat, b: nat)
    requires a < Pow2(bits)
    ensures Xor(bits, Xor(bits, a, b), b) == a
  {
    if bits > 0 {
      XorCancels(bits - 1, a / 2, b / 2);
      var x, r := Xor(bits, a, b), Xor(bits - 1, a / 2, b / 2);
      LowBit((a + b) % 2, r);
      BitBack(a, b, x);
      assert Xor(bits, x, b) == a % 2 + 2 * Xor(bits - 1, r, b / 2);
    }
  }

  lemma {:induction false} XorCommutes(bits: nat, a: nat, b: nat)
    ensures Xor(bits, a, b) == Xor(bits, b, a)
  {
    if bits > 0 {
      XorCommutes(bits - 1, a / 2, b / 2);
    }
  }

  function XorByte(a: byte, b: byte): byte {
    XorBounded(8, a, b);
    assert Pow2(8) == 256 by { assert Pow2(4) == 16; }
    Xor(8, a, b)
  }

  /** A byte of a nonce is masked digit by digit, and by 0 not at all, whichever side the 0 is on. */
  lemma XorByteIs(a: byte, b: byte)
    ensures forall k :: 0 <= k < 8 ==> (Bit(XorByte(a, b), k) <==> Bit(a, k) != Bit(b, k))
    ensures XorByte(a, 0) == a && XorByte(0, a) == a
  {
    assert Pow2(8) == 256 by { assert Pow2(4) == 16; }
    forall k | 0 <= k < 8
      ensures Bit(XorByte(a, b), k) <==> Bit(a, k) != Bit(b, k)
    {
      XorBits(8, a, b, k);
    }
    XorZero(8, a);
    XorCommutes(8, 0, a);
  }

  lemma XorByteInjective(a: byte, b: byte, c: byte)
    requires XorByte(a, b) == XorByte(a, c)
    ensures b == c
  {
    assert Pow2(8) == 256 by { assert Pow2(4) == 16; }
    XorCommutes(8, a, b);
    XorCommutes(8, a, c);
    XorCancels(8, b, a);
    XorCancels(8, c, a);
  }

  /** The counter after `i` right shifts by one byte. */
  function Shifted(c: uint64, i: nat): uint64 {
    if i == 0 then c else Shifted(c, i - 1) / 256
  }

  function ByteOf(c: uint64, i: nat): byte {
    Shifted(c, i) % 256
  }

  /** The nonce for counter value `c`: the big-endian counter is XORed into the last eight bytes. */
  function CounterNonce(base: Nonce, c: uint64): (n: Nonce)
    ensures n[..4] == base[..4]
  {
    base[..4] + seq(8, k requires 0 <= k < 8 => XorByte(base[4 + k], ByteOf(c, 7 - k)))
  }

  lemma {:induction false} ShiftedByIndex(c: uint64, d: uint64, i: nat)
    requires i <= 8 && Shifted(c, 8) == Shifted(d, 8)
    requires forall k :: i <= k < 8 ==> ByteOf(c, k) == ByteOf(d, k)
    ensures Shifted(c, i) == Shifted(d, i)
    decreases 8 - i
  {
    if i < 8 {
      ShiftedByIndex(c, d, i + 1);
      assert ByteOf(c, i) == ByteOf(d, i);
    }
  }

  lemma EightShiftsClear(c: uint64)
    ensures Shifted(c, 8) == 0
  {
    assert Shifted(c, 2) < 0x1_0000_0000_0000;
    assert Shifted(c, 4) < 0x1_0000_0000;
    assert Shifted(c, 6) < 0x1_0000;
  }

  /** Over one base nonce, two counter values give the same nonce only if they are the same value. */
  lemma CounterNonceInjective(base: Nonce, c: uint64, d: uint64)
    ensures CounterNonce(base, c) == CounterNonce(base, d) <==> c == d
  {
    if CounterNonce(base, c) == CounterNonce(base, d) {
      forall k | 0 <= k < 8 ensures ByteOf(c, k) == ByteOf(d, k) {
        assert CounterNonce(base, c)[11 - k] == XorByte(base[11 - k], ByteOf(c, k));
        assert CounterNonce(base, d)[11 - k] == XorByte(base[11 - k], ByteOf(d, k));
        XorByteInjective(base[11 - k], ByteOf(c, k), ByteOf(d, k));
      }
      EightShiftsClear(c);
      EightShiftsClear(d);
      ShiftedByIndex(c, d, 0);
    }
  }

  /** The number a big-endian string of bytes stands for. */
  function FromBytes(s: seq<byte>): nat {
    if s == [] then 0 else FromBytes(s[..|s| - 1]) * 256 + s[|s| - 1]
  }

  /** The bytes of a counter from the highest down to byte `8 - n`. */
  function HighBytes(c: uint64, n: nat): seq<byte>
    requires n <= 8
  {
    seq(n, k requires 0 <= k < n => ByteOf(c, 7 - k))
  }

  lemma {:induction false} HighBytesCount(c: uint64, n: nat)
    requires n <= 8
    ensures FromBytes(HighBytes(c, n)) == Shifted(c, 8 - n)
  {
    if n == 0 {
      EightShiftsClear(c);
    } else {
      HighBytesCount(c, n - 1);
      assert HighBytes(c, n)[..n - 1] == HighBytes(c, n - 1);
      assert Shifted(c, 9 - n) == Shifted(c, 8 - n) / 256;
    }
  }

  /** The first use gives the base nonce itself, and over an all-zero base the last eight bytes of a nonce are the counter, as a
      big-endian number: the highest byte comes first. */
  lemma NonceIsMaskedCounter(base: Nonce, c: uint64)
    ensures CounterNonce(base, 0) == base
    ensures FromBytes(CounterNonce(seq(12, _ => 0), c)[4..]) == c
    ensures forall p, k :: 4 <= p < 12 && 0 <= k < 8 ==>
      (Bit(CounterNonce(base, c)[p], k) <==> Bit(base[p], k) != Bit(CounterNonce(seq(12, _ => 0), c)[p], k))
  {
    var zero: Nonce := seq(12, _ => 0);
    forall p | 4 <= p < 12
      ensures CounterNonce(base, 0)[p] == base[p] && CounterNonce(zero, c)[p] == HighBytes(c, 8)[p - 4]
      ensures forall k :: 0 <= k < 8 ==> (Bit(CounterNonce(base, c)[p], k) <==> Bit(base[p], k) != Bit(CounterNonce(zero, c)[p], k))
    {
      ZeroBytes(11 - p);
      XorByteIs(base[p], ByteOf(c, 11 - p));
      XorByteIs(ByteOf(c, 11 - p), 0);
    }
    assert CounterNonce(base, 0) == base;
    assert CounterNonce(zero, c)[4..] == HighBytes(c, 8);
    HighBytesCount(c, 8);
  }

  lemma {:induction false} ZeroBytes(i: nat)
    ensures Shifted(0, i) == 0 && ByteOf(0, i) == 0
  {
    if i > 0 {
      ZeroBytes(i - 1);
    }
  }

  /** The `j`-th and the `k`-th nonce drawn from one counter differ as long as the counter has not gone round. */
  lemma NoncesOfOneCounterDistinct(base: Nonce, j: nat, k: nat)
    requires j < k < j + TWO_TO_64
    ensures CounterNonce(base, Wrap(j)) != CounterNonce(base, Wrap(k))
  {
    CounterNonceInjective(base, Wrap(j), Wrap(k));
  }

  /** The eight-step loop: one byte of the counter at a time, from the last byte of the nonce backwards. */
  method ModifyNonceWithSequence(baseNonce: Nonce, sequence: uint64) returns (result: Nonce)
    ensures result == CounterNonce(baseNonce, sequence)
  {
    var nonce := new byte[12](k requires 0 <= k < 12 => baseNonce[k]);
    var counter := sequence;
    for i := 0 to 8
      invariant counter == Shifted(sequence, i)
      invariant forall k :: 0 <= k < 12 - i ==> nonce[k] == baseNonce[k]
      invariant forall k :: 12 - i <= k < 12 ==> nonce[k] == XorByte(baseNonce[k], ByteOf(sequence, 11 - k))
    {
      nonce[11 - i] := XorByte(nonce[11 - i], counter % 256);
      counter := counter / 256;
    }
    result := nonce[..];
    assert result == CounterNonce(baseNonce, sequence);
  }
}
