/** Numbers as big-endian octets. */
module BigEndian {
  import opened Base
  import opened Word64

  /** Octets read as a number, the first most significant. */
  function Number(o: seq<Byte>): nat {
    if o == [] then 0
    else
      var high: nat, low: nat := Number(o[..|o| - 1]), o[|o| - 1];
      256 * high + low
  }

  /** The last `k` octets of a number. */
  function Be(n: nat, k: nat): (o: seq<Byte>)
    ensures |o| == k
  {
    if k == 0 then [] else Be(n / 256, k - 1) + [n % 256]
  }

  lemma {:induction false} NumberBound(o: seq<Byte>)
    ensures Number(o) < Pow2(8 * |o|)
  {
    if o != [] {
      NumberBound(o[..|o| - 1]);
      Pow2Plus8(8 * (|o| - 1));
    }
  }

  lemma {:induction false} NumberOfBe(n: nat, k: nat)
    requires n < Pow2(8 * k)
    ensures Number(Be(n, k)) == n
  {
    if k > 0 {
      Pow2Plus8(8 * (k - 1));
      NumberOfBe(n / 256, k - 1);
      assert Be(n, k)[..k - 1] == Be(n / 256, k - 1);
    }
  }

  lemma {:induction false} BeOfNumber(o: seq<Byte>)
    ensures Be(Number(o), |o|) == o
  {
    if o != [] {
      BeOfNumber(o[..|o| - 1]);
      assert o == o[..|o| - 1] + [o[|o| - 1]];
    }
  }

  lemma {:induction false} Bounds()
    ensures Pow2(16) == 0x1_0000 && Pow2(64) == TWO_64
  {
    WordIsPow2();
    Pow2At32();
  }

  /** Writing 16- and 64-bit numbers and reading them back agree. */
  lemma {:induction false} RoundTrip16(n: U16)
    ensures Number(Be(n, 2)) == n
  {
    Bounds();
    NumberOfBe(n, 2);
  }

  lemma {:induction false} RoundTrip64(n: U64)
    ensures Number(Be(n, 8)) == n
  {
    Bounds();
    NumberOfBe(n, 8);
  }

  lemma {:induction false} Read16(o: seq<Byte>)
    requires |o| == 2
    ensures Number(o) < 0x1_0000 && Be(Number(o), 2) == o
  {
    Bounds();
    NumberBound(o);
    BeOfNumber(o);
  }

  lemma {:induction false} Read64(o: seq<Byte>)
    requires |o| == 8
    ensures Number(o) < TWO_64 && Be(Number(o), 8) == o
  {
    Bounds();
    NumberBound(o);
    BeOfNumber(o);
  }
}
