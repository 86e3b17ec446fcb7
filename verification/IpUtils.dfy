/** pkg/iputils/iputils.go: a random address of a prefix, over netip's addresses and 16-byte forms. */
module IpUtils {
  import opened Wrappers
  import opened Options

  function Pow2(n: nat): (p: nat)
    ensures p >= 1
  {
    if n == 0 then 1 else 2 * Pow2(n - 1)
  }

  /** The number of the block of the given size that x lies in. */
  function Block(x: nat, size: nat): nat
    requires size > 0
  {
    x / size
  }

  /** The start of that block. */
  function RoundDown(x: nat, size: nat): (start: nat)
    requires size > 0
    ensures start == Block(x, size) * size && start <= x < start + size
  {
    x - x % size
  }

  /** big.Int.Rand: what the generator yields, reduced below the maximum. */
  function Reduce(random: nat, max: nat): (r: nat)
    requires max > 0
    ensures r < max && (random < max ==> r == random)
  {
    random % max
  }

  const MAPPED_BASE: nat := 0xFFFF_0000_0000

  /** netip.Addr without zones. */
  datatype Addr = V4(bits: nat) | V6(bits: nat)
  {
    predicate Valid() {
      bits < Pow2(BitLen())
    }

    function BitLen(): nat {
      if V4? then 32 else 128
    }

    /** Addr.Is4In6: an address of ::ffff:0:0/96. */
    predicate Is4In6() {
      V6? && MAPPED_BASE <= bits < MAPPED_BASE + Pow2(32)
    }

    /** Addr.As16 read as a number: an IPv4 address takes its mapped form. */
    function Number16(): nat {
      if V4? then MAPPED_BASE + bits else bits
    }

    /** Addr.Unmap. */
    function Unmap(): Addr {
      if Is4In6() then V4(bits - MAPPED_BASE) else this
    }
  }

  /** netip.Prefix; a prefix that is not valid has no bits. */
  datatype Prefix = Prefix(addr: Addr, bits: nat) | InvalidPrefix
  {
    predicate Valid() {
      Prefix? ==> addr.Valid() && bits <= addr.BitLen()
    }

    function HostSize(): nat
      requires Prefix? && Valid()
    {
      Pow2(addr.BitLen() - bits)
    }

    /** Prefix.Masked().Addr(): the host bits cleared. */
    function First(): (a: Addr)
      requires Prefix? && Valid()
      ensures a.Valid()
    {
      var start := RoundDown(addr.bits, HostSize());
      if addr.V4? then V4(start) else V6(start)
    }

    /** Prefix.Contains: same family, same leading bits. */
    predicate Contains(a: Addr)
      requires Prefix? && Valid()
    {
      a.V4? == addr.V4? && Block(a.bits, HostSize()) == Block(addr.bits, HostSize())
    }

    /** The prefix is an IPv6 one that contains ::ffff:0:0. */
    predicate CoversMapped()
      requires Prefix? && Valid()
    {
      Contains(V6(MAPPED_BASE))
    }
  }

  // ---------------------------------------------------------------- 16-byte forms

  /** big.Int.SetBytes: big-endian. */
  function NumberOfBytes(bytes: seq<Byte>): nat {
    if bytes == [] then 0 else NumberOfBytes(bytes[..|bytes| - 1]) * 256 + bytes[|bytes| - 1]
  }

  /** big.Int.FillBytes; it panics for a number that does not fit. */
  function FillBytes(n: nat, size: nat): Outcome<seq<Byte>> {
    if size == 0 then if n == 0 then Ok([]) else Panic("math/big: buffer too small to fit value")
    else match FillBytes(n / 256, size - 1)
         case Ok(bytes) => Ok(bytes + [n % 256])
         case other => other
  }

  /** The bytes of a number read back as the number, and they exist exactly when the number fits. */
  lemma {:induction false} FillBytesRoundTrip(n: nat, size: nat)
    ensures FillBytes(n, size).Ok? <==> n < Pow2(8 * size)
    ensures FillBytes(n, size).Ok? ==>
              |FillBytes(n, size).value| == size && NumberOfBytes(FillBytes(n, size).value) == n
  {
    if size > 0 {
      FillBytesRoundTrip(n / 256, size - 1);
      Pow2Sum(8 * (size - 1), 8);
      assert Pow2(8) == 256;
      assert n / 256 < Pow2(8 * (size - 1)) <==> n < Pow2(8 * (size - 1)) * 256;
      match FillBytes(n / 256, size - 1)
      case Ok(bytes) => assert (bytes + [n % 256])[..size - 1] == bytes;
      case _ =>
    }
  }

  lemma {:induction false} Pow2Sum(a: nat, b: nat)
    ensures Pow2(a + b) == Pow2(a) * Pow2(b)
  {
    if b > 0 {
      Pow2Sum(a, b - 1);
    }
  }

  lemma {:induction false} BytesOfBytes(bytes: seq<Byte>)
    ensures FillBytes(NumberOfBytes(bytes), |bytes|) == Ok(bytes)
  {
    if bytes != [] {
      BytesOfBytes(bytes[..|bytes| - 1]);
      assert bytes == bytes[..|bytes| - 1] + [bytes[|bytes| - 1]];
    }
  }

  /** Addr.As16. */
  function As16(a: Addr): (bytes: seq<Byte>)
    requires a.Valid()
    ensures |bytes| == 16 && NumberOfBytes(bytes) == a.Number16()
  {
    FillBytesRoundTrip(a.Number16(), 16);
    Powers();
    FillBytes(a.Number16(), 16).value
  }

  // ---------------------------------------------------------------- RandomIPFromPrefix

  /** RandomIPFromPrefix, for what the generator yields. */
  function RandomIpFromPrefix(cidr: Prefix, random: nat): Outcome<Addr>
    requires cidr.Valid()
  {
    if cidr.Prefix? && cidr.First().Is4In6() then Err("mapped v4 addresses not supported")
    else if cidr.InvalidPrefix? then Err("invalid cidr")
    else
      var max := cidr.HostSize();
      var randInt := Reduce(random, max);
      var start := NumberOfBytes(As16(cidr.First()));
      match FillBytes(start + randInt, 16)
      case Ok(bytes) => Ok(V6(NumberOfBytes(bytes)).Unmap())
      case Err(e) => Err(e)
      case Panic(p) => Panic(p)
  }

  // ---------------------------------------------------------------- the addresses it can yield

  lemma MulMonotone(a: nat, b: nat, size: nat)
    requires a <= b
    ensures a * size <= b * size
  {
  }

  lemma BlockOf(x: nat, y: nat, size: nat)
    requires size > 0
    ensures Block(x, size) == Block(y, size) <==> RoundDown(y, size) <= x < RoundDown(y, size) + size
  {
    hide Block, RoundDown;
    var r, q := Block(x, size), Block(y, size);
    var start := RoundDown(x, size);
    if r < q {
      MulMonotone(r + 1, q, size);
    } else if r > q {
      MulMonotone(q + 1, r, size);
    }
  }

  lemma BlockEnds(x: nat, size: nat, blocks: nat)
    requires size > 0 && x < blocks * size
    ensures RoundDown(x, size) + size <= blocks * size
  {
    hide Block, RoundDown;
    var q := Block(x, size);
    var start := RoundDown(x, size);
    if q >= blocks {
      MulMonotone(blocks, q, size);
    } else {
      MulMonotone(q + 1, blocks, size);
    }
  }

  lemma Squared(n: nat, p: nat)
    requires Pow2(n) == p
    ensures Pow2(n + n) == p * p
  {
    Pow2Sum(n, n);
  }

  lemma Powers()
    ensures Pow2(8) == 0x100
    ensures Pow2(32) == 0x1_0000_0000
    ensures Pow2(64) == 0x1_0000_0000_0000_0000
    ensures Pow2(128) == 0x1_0000_0000_0000_0000_0000_0000_0000_0000
  {
    assert Pow2(4) == 16;
    hide Pow2;
    Squared(4, 16);
    Squared(8, 0x100);
    Squared(16, 0x1_0000);
    Squared(32, 0x1_0000_0000);
    Squared(64, 0x1_0000_0000_0000_0000);
  }

  /** Every block of a prefix ends inside the address space, so its addresses fit their family. */
  lemma BlockFits(cidr: Prefix)
    requires cidr.Prefix? && cidr.Valid()
    ensures cidr.First().bits + cidr.HostSize() <= Pow2(cidr.addr.BitLen())
  {
    hide Pow2;
    Pow2Sum(cidr.bits, cidr.addr.BitLen() - cidr.bits);
    BlockEnds(cidr.addr.bits, cidr.HostSize(), Pow2(cidr.bits));
  }

  /** The address at a draw's offset in the block of the prefix. */
  function Drawn(cidr: Prefix, random: nat): Addr
    requires cidr.Prefix? && cidr.Valid()
  {
    var sum := cidr.First().bits + Reduce(random, cidr.HostSize());
    if cidr.addr.V4? then V4(sum) else V6(sum)
  }

  lemma DrawnIsInside(cidr: Prefix, random: nat)
    requires cidr.Prefix? && cidr.Valid()
    ensures Drawn(cidr, random).Valid() && cidr.Contains(Drawn(cidr, random))
  {
    BlockFits(cidr);
    BlockOf(Drawn(cidr, random).bits, cidr.addr.bits, cidr.HostSize());
    hide Pow2, Block, RoundDown, Reduce;
  }

  /** A number that fits is written in 16 bytes, and read as an address that is unmapped when it is a mapped one. */
  lemma ReadBack(a: Addr)
    requires a.Valid()
    ensures FillBytes(a.Number16(), 16).Ok?
    ensures V6(NumberOfBytes(FillBytes(a.Number16(), 16).value)).Unmap() == a.Unmap()
  {
    FillBytesRoundTrip(a.Number16(), 16);
    hide Pow2, FillBytes, NumberOfBytes;
    Powers();
  }

  lemma SumIsNumber(cidr: Prefix, random: nat)
    requires cidr.Prefix? && cidr.Valid()
    ensures NumberOfBytes(As16(cidr.First())) + Reduce(random, cidr.HostSize()) == Drawn(cidr, random).Number16()
  {
    hide Pow2, FillBytes, NumberOfBytes, Reduce, RoundDown, As16;
  }

  /** The number drawn is added inside the block and read back unchanged; only then mapped addresses are unmapped. */
  lemma DrawnAddress(cidr: Prefix, random: nat)
    requires cidr.Prefix? && cidr.Valid() && !cidr.First().Is4In6()
    ensures var sum := cidr.First().bits + Reduce(random, cidr.HostSize());
            var a := if cidr.addr.V4? then V4(sum) else V6(sum);
            a.Valid() && cidr.Contains(a) && RandomIpFromPrefix(cidr, random) == Ok(a.Unmap())
  {
    hide Pow2, FillBytes, NumberOfBytes, Reduce, As16, Addr.Valid, Addr.Unmap, Addr.Number16, Prefix.Contains,
      Prefix.First, Prefix.HostSize, Addr.Is4In6, RoundDown, Block;
    DrawnIsInside(cidr, random);
    SumIsNumber(cidr, random);
    ReadBack(Drawn(cidr, random));
  }

  /** RandomIPFromPrefix fails exactly for an invalid prefix and for one that starts at a mapped address. */
  lemma FailsOnlyForInvalidOrMapped(cidr: Prefix, random: nat)
    requires cidr.Valid()
    ensures RandomIpFromPrefix(cidr, random).Ok? <==> cidr.Prefix? && !cidr.First().Is4In6()
    ensures !RandomIpFromPrefix(cidr, random).Panic?
  {
    if cidr.Prefix? && !cidr.First().Is4In6() {
      DrawnAddress(cidr, random);
    }
  }

  /** The result is an address of the prefix for every draw if and only if the prefix does not contain
      ::ffff:0:0: an IPv4 prefix then yields IPv4 and an IPv6 prefix IPv6. */
  lemma StaysInPrefixIff(cidr: Prefix)
    requires cidr.Prefix? && cidr.Valid() && !cidr.First().Is4In6()
    ensures (forall random: nat :: RandomIpFromPrefix(cidr, random).Ok?
                                   && cidr.Contains(RandomIpFromPrefix(cidr, random).value))
       <==> !cidr.CoversMapped()
  {
    hide RandomIpFromPrefix, Pow2, Block, RoundDown, Reduce;
    var size := cidr.HostSize();
    BlockOf(MAPPED_BASE, cidr.addr.bits, size);
    forall random: nat
      ensures RandomIpFromPrefix(cidr, random).Ok?
      ensures !cidr.CoversMapped() ==> cidr.Contains(RandomIpFromPrefix(cidr, random).value)
    {
      DrawnAddress(cidr, random);
      BlockOf(cidr.First().bits + Reduce(random, size), cidr.addr.bits, size);
    }
    if cidr.CoversMapped() {
      var random := MAPPED_BASE - cidr.First().bits;
      DrawnAddress(cidr, random);
      Powers();
      assert RandomIpFromPrefix(cidr, random) == Ok(V4(0));
      assert !cidr.Contains(RandomIpFromPrefix(cidr, random).value);
    }
  }

  /** Every address of the prefix is reachable: one draw, its offset in the block, yields it. */
  lemma EveryAddressReachable(cidr: Prefix, a: Addr)
    requires cidr.Prefix? && cidr.Valid() && !cidr.First().Is4In6()
    requires cidr.Contains(a) && !a.Is4In6()
    ensures a.bits >= cidr.First().bits && RandomIpFromPrefix(cidr, a.bits - cidr.First().bits) == Ok(a)
  {
    hide RandomIpFromPrefix, Pow2, Block, RoundDown, Reduce;
    BlockOf(a.bits, cidr.addr.bits, cidr.HostSize());
    var offset := a.bits - cidr.First().bits;
    DrawnAddress(cidr, offset);
  }

  /** Different offsets in the block yield different addresses. */
  lemma DrawsAreInjective(cidr: Prefix, i: nat, j: nat)
    requires cidr.Prefix? && cidr.Valid() && !cidr.First().Is4In6() && !cidr.CoversMapped()
    requires i < cidr.HostSize() && j < cidr.HostSize()
    requires RandomIpFromPrefix(cidr, i) == RandomIpFromPrefix(cidr, j)
    ensures i == j
  {
    hide RandomIpFromPrefix, Pow2, Block, RoundDown, Reduce;
    DrawnAddress(cidr, i);
    DrawnAddress(cidr, j);
  }

  // ---------------------------------------------------------------- prefixes bit by bit

  /** Bit i of a number that is written with length bits, the highest one first. */
  function BitAt(x: nat, length: nat, i: nat): nat
    requires i < length
  {
    x / Pow2(length - 1 - i) % 2
  }

  lemma DivTwice(x: nat, p: nat)
    requires p > 0
    ensures x / (2 * p) == x / p / 2
  {
    var q := x / p;
    var r := x % p;
    assert x == p * q + r;
    assert q == 2 * (q / 2) + q % 2;
    var rest := p * (q % 2) + r;
    assert p * q == 2 * p * (q / 2) + p * (q % 2) by {
      assert p * q == p * (2 * (q / 2) + q % 2);
    }
    assert rest < 2 * p by {
      if q % 2 == 0 {
        assert rest == r;
      } else {
        assert rest == p + r;
      }
    }
    QuotientIs(x, 2 * p, q / 2, rest);
  }

  lemma QuotientIs(x: nat, d: nat, q: nat, r: nat)
    requires d > 0 && r < d && x == d * q + r
    ensures x / d == q
  {
    if x / d > q {
      MulMonotone(q + 1, x / d, d);
    } else if x / d < q {
      MulMonotone(x / d + 1, q, d);
    }
  }

  /** The leading bits of two numbers agree exactly when what is left of them without the others does. */
  lemma {:induction false} LeadingBitsIff(x: nat, y: nat, length: nat, n: nat)
    requires x < Pow2(length) && y < Pow2(length) && n <= length
    ensures x / Pow2(length - n) == y / Pow2(length - n)
       <==> forall i | 0 <= i < n :: BitAt(x, length, i) == BitAt(y, length, i)
  {
    if n == 0 {
      SmallQuotient(x, Pow2(length));
      SmallQuotient(y, Pow2(length));
    } else {
      LeadingBitsIff(x, y, length, n - 1);
      var p := Pow2(length - n);
      assert Pow2(length - (n - 1)) == 2 * p;
      DivTwice(x, p);
      DivTwice(y, p);
      var (a, b) := (x / p, y / p);
      assert BitAt(x, length, n - 1) == a % 2 && BitAt(y, length, n - 1) == b % 2;
      hide BitAt, Pow2;
      assert a == b <==> a / 2 == b / 2 && a % 2 == b % 2;
    }
  }

  lemma SmallQuotient(x: nat, d: nat)
    requires x < d
    ensures x / d == 0
  {
    QuotientIs(x, d, 0, x);
  }

  /** An address is in a prefix exactly when it is of its family and its first bits are those of the prefix. */
  lemma ContainsIff(cidr: Prefix, a: Addr)
    requires cidr.Prefix? && cidr.Valid() && a.Valid()
    ensures var length := if cidr.addr.V4? then 32 else 128;
            cidr.Contains(a) <==> && a.V4? == cidr.addr.V4?
                                  && cidr.bits <= length
                                  && forall i | 0 <= i < cidr.bits ::
                                       BitAt(a.bits, length, i) == BitAt(cidr.addr.bits, length, i)
  {
    hide Pow2, BitAt;
    var length := if cidr.addr.V4? then 32 else 128;
    if a.V4? == cidr.addr.V4? {
      LeadingBitsIff(a.bits, cidr.addr.bits, length, cidr.bits);
    }
  }

  /** A prefix of full length holds one address, and every draw yields it. */
  lemma FullLengthPrefix(a: Addr, random: nat)
    requires a.Valid() && !a.Is4In6()
    ensures RandomIpFromPrefix(Prefix(a, if a.V4? then 32 else 128), random) == Ok(a)
  {
    var cidr := Prefix(a, if a.V4? then 32 else 128);
    assert cidr.HostSize() == 1;
    hide Pow2, RandomIpFromPrefix;
    DrawnAddress(cidr, random);
  }

  /** An IPv4 address in 16 bytes is the mapped one; so bytes are written from the highest on. */
  lemma BytesOfIpv4(a: Byte, b: Byte, c: Byte, d: Byte)
    ensures var addr := V4(((a * 256 + b) * 256 + c) * 256 + d);
            addr.Valid() && As16(addr) == [0, 0, 0, 0, 0, 0, 0, 0, 0, 0, 255, 255, a, b, c, d]
  {
    var addr := V4(((a * 256 + b) * 256 + c) * 256 + d);
    Powers();
    var bytes: seq<Byte> := [0, 0, 0, 0, 0, 0, 0, 0, 0, 0, 255, 255, a, b, c, d];
    NumberOfMapped(a, b, c, d);
    BytesOfBytes(bytes);
    hide Pow2, FillBytes, NumberOfBytes;
  }

  lemma NumberOfNext(bytes: seq<Byte>, last: Byte)
    ensures NumberOfBytes(bytes + [last]) == NumberOfBytes(bytes) * 256 + last
  {
    assert (bytes + [last])[..|bytes|] == bytes;
  }

  lemma NumberOfMapped(a: Byte, b: Byte, c: Byte, d: Byte)
    ensures NumberOfBytes([0, 0, 0, 0, 0, 0, 0, 0, 0, 0, 255, 255, a, b, c, d])
         == 0xFFFF_0000_0000 + (((a * 256 + b) * 256 + c) * 256 + d)
  {
    hide NumberOfBytes;
    NumberOfZeros([0, 0, 0, 0, 0, 0, 0, 0, 0, 0]);
    var zeros: seq<Byte> := [0, 0, 0, 0, 0, 0, 0, 0, 0, 0];
    NumberOfNext(zeros, 255);
    NumberOfNext(zeros + [255], 255);
    NumberOfNext(zeros + [255] + [255], a);
    NumberOfNext(zeros + [255] + [255] + [a], b);
    NumberOfNext(zeros + [255] + [255] + [a] + [b], c);
    NumberOfNext(zeros + [255] + [255] + [a] + [b] + [c], d);
    assert zeros + [255] + [255] + [a] + [b] + [c] + [d]
        == [0, 0, 0, 0, 0, 0, 0, 0, 0, 0, 255, 255, a, b, c, d];
  }

  lemma {:induction false} NumberOfZeros(bytes: seq<Byte>)
    requires forall i | 0 <= i < |bytes| :: bytes[i] == 0
    ensures NumberOfBytes(bytes) == 0
  {
    if bytes != [] {
      NumberOfZeros(bytes[..|bytes| - 1]);
    }
  }

  /** The mapped addresses are those of ::ffff:0:0/96, and unmapping keeps their last 32 bits. */
  lemma MappedAre(a: Addr)
    ensures a.Is4In6() <==> a.V6? && a.bits / 0x1_0000_0000 == 0xFFFF
    ensures a.Unmap() == if a.V6? && a.bits / 0x1_0000_0000 == 0xFFFF then V4(a.bits % 0x1_0000_0000) else a
  {
    Powers();
    hide Pow2;
  }
}
