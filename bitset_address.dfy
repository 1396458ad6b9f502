/**
 * `getRandomLocalAddressHost` of LocalAddressProvider.java: the address bytes
 * (4 for IPv4, section 2.3 of RFC 791; 16 for IPv6, section 2 of RFC 4291)
 * become a `BitSet`, which numbers bits least significant first within each
 * byte; the top `IP_RANGE` indices are overwritten with random bits, from the
 * highest down; the bit set is exported and zero-padded back to the address
 * length. The name lookup of `IP_BASE` is left out: the model starts from its
 * bytes. `ThreadLocalRandom.nextBoolean()` is the sequence `coins`.
 */
module BitAddress {
  import opened Wrappers

  /** `RuntimeException("Failed to get random local address")` */
  datatype AddressError = FailedToGetRandomLocalAddress

  /** Bit `j` of a byte, bit 0 being the least significant. */
  predicate BitOf(b: bv8, j: nat)
    requires j < 8
  {
    (b >> j) & 1 == 1
  }

  /** The byte whose bit `j` is `bs[j]`. */
  function Pack(bs: seq<bool>): (b: bv8)
    requires |bs| == 8
    ensures forall j :: 0 <= j < 8 ==> BitOf(b, j) == bs[j]
  {
    (if bs[0] then 1 else 0) | (if bs[1] then 2 else 0) | (if bs[2] then 4 else 0) | (if bs[3] then 8 else 0)
    | (if bs[4] then 16 else 0) | (if bs[5] then 32 else 0) | (if bs[6] then 64 else 0) | (if bs[7] then 128 else 0)
  }

  /** `BitSet.valueOf(bytes)`: bit `i` is bit `i % 8` of byte `i / 8`. */
  function BitsOf(bytes: seq<bv8>): (bits: seq<bool>)
    ensures |bits| == 8 * |bytes|
  {
    seq(8 * |bytes|, i requires 0 <= i < 8 * |bytes| => BitOf(bytes[i / 8], i % 8))
  }

  /** The byte `k` a bit set encodes. */
  function ByteOf(bits: seq<bool>, k: nat): bv8
    requires 8 * k + 8 <= |bits|
  {
    Pack(bits[8 * k .. 8 * k + 8])
  }

  /** The bytes a bit set of whole bytes encodes, low bits first. */
  function BytesOf(bits: seq<bool>): (bytes: seq<bv8>)
    requires |bits| % 8 == 0
    ensures |bytes| == |bits| / 8
  {
    seq(|bits| / 8, k requires 0 <= k < |bits| / 8 => ByteOf(bits, k))
  }

  /** A byte is the packing of its own bits. */
  lemma PackOfBits(bs: seq<bool>, b: bv8)
    requires |bs| == 8 && forall j :: 0 <= j < 8 ==> bs[j] == BitOf(b, j)
    ensures Pack(bs) == b
  {
    assert bs[0] == BitOf(b, 0) && bs[1] == BitOf(b, 1) && bs[2] == BitOf(b, 2) && bs[3] == BitOf(b, 3);
    assert bs[4] == BitOf(b, 4) && bs[5] == BitOf(b, 5) && bs[6] == BitOf(b, 6) && bs[7] == BitOf(b, 7);
  }

  /** Bit `8 * k + j` of a bit set made from bytes is bit `j` of byte `k`. */
  lemma BitIndex(bytes: seq<bv8>, k: nat, j: nat)
    requires k < |bytes| && j < 8
    ensures BitsOf(bytes)[8 * k + j] == BitOf(bytes[k], j)
  {
    assert (8 * k + j) / 8 == k && (8 * k + j) % 8 == j;
  }

  /** Byte `k` encoded from a byte array's bits is byte `k` itself. */
  lemma ByteOfBitsOf(bytes: seq<bv8>, k: nat)
    requires k < |bytes|
    ensures ByteOf(BitsOf(bytes), k) == bytes[k]
  {
    var bits := BitsOf(bytes);
    var chunk := bits[8 * k .. 8 * k + 8];
    forall j | 0 <= j < 8
      ensures chunk[j] == BitOf(bytes[k], j)
    {
      BitIndex(bytes, k, j);
    }
    PackOfBits(chunk, bytes[k]);
  }

  /** Encoding the bits of a byte array gives the array back. */
  lemma BytesOfBitsOf(bytes: seq<bv8>)
    ensures BytesOf(BitsOf(bytes)) == bytes
  {
    forall k | 0 <= k < |bytes|
      ensures BytesOf(BitsOf(bytes))[k] == bytes[k]
    {
      ByteOfBitsOf(bytes, k);
    }
  }

  /** The bits of encoded bytes are the bits encoded. */
  lemma BitsOfBytesOf(bits: seq<bool>)
    requires |bits| % 8 == 0
    ensures BitsOf(BytesOf(bits)) == bits
  {
    var bytes := BytesOf(bits);
    forall i | 0 <= i < |bits|
      ensures BitsOf(bytes)[i] == bits[i]
    {
      var k := i / 8;
      assert bits[8 * k .. 8 * k + 8][i % 8] == bits[i];
    }
  }

  /**
   * The bits after the loop has run `n` times: index `|bits| - 1 - i` holds
   * coin `i` for `i < n`, every other index its old bit.
   */
  function Flipped(bits: seq<bool>, n: nat, coins: seq<bool>): (r: seq<bool>)
    requires n <= |bits| && n <= |coins|
    ensures |r| == |bits|
  {
    seq(|bits|, j requires 0 <= j < |bits| => if j >= |bits| - n then coins[|bits| - 1 - j] else bits[j])
  }

  /** `toByteArray()`: the little-endian bytes up to the last non-zero one. */
  function Trimmed(bytes: seq<bv8>): (r: seq<bv8>)
    ensures |r| <= |bytes| && r == bytes[..|r|]
    ensures r == [] || r[|r| - 1] != 0
  {
    if bytes != [] && bytes[|bytes| - 1] == 0 then Trimmed(bytes[..|bytes| - 1]) else bytes
  }

  /** `new byte[len]` with the exported bytes copied to its front. */
  function Padded(exported: seq<bv8>, len: nat): (r: seq<bv8>)
    requires |exported| <= len
    ensures |r| == len
  {
    exported + seq(len - |exported|, _ => 0)
  }

  /** Exporting and zero-padding to the original length reproduces exactly the bytes. */
  lemma {:induction false} PaddedTrimmed(bytes: seq<bv8>)
    ensures Padded(Trimmed(bytes), |bytes|) == bytes
  {
    if bytes != [] && bytes[|bytes| - 1] == 0 {
      var init := bytes[..|bytes| - 1];
      PaddedTrimmed(init);
      assert bytes == init + [0];
    }
  }

  /** What `getRandomLocalAddressHost` yields for base bytes, a range and the random bits it draws. */
  function Randomised(base: seq<bv8>, ipRange: int, coins: seq<bool>): (r: Result<seq<bv8>, AddressError>)
    requires ipRange <= |coins|
    ensures r.Failure? <==> ipRange > 8 * |base|
    ensures r.Success? ==> |r.value| == |base|
  {
    var bits := BitsOf(base);
    if ipRange > |bits| then Failure(FailedToGetRandomLocalAddress)
    else Success(BytesOf(Flipped(bits, if ipRange < 0 then 0 else ipRange, coins)))
  }

  /**
   * The method: the bit set is an array of `8 * |base|` booleans (no bit at or
   * above that index is ever set); `coins[i]` is the `i`-th `nextBoolean()`.
   */
  method RandomLocalAddressHost(ipBase: seq<bv8>, ipRange: int, coins: seq<bool>)
    returns (r: Result<seq<bv8>, AddressError>)
    requires ipRange <= |coins|
    ensures r == Randomised(ipBase, ipRange, coins)
  {
    var base := BitsOf(ipBase);
    var bits := |base|;
    assert bits % 8 == 0 && bits / 8 == |ipBase|;
    var bitSet := new bool[bits](j requires 0 <= j < bits => base[j]);
    var i := 0;
    while i < ipRange
      invariant 0 <= i <= bits && i <= |coins|
      invariant i <= ipRange || i == 0
      invariant forall j :: 0 <= j < bits ==> bitSet[j] == if j >= bits - i then coins[bits - 1 - j] else base[j]
    {
      if bits - i - 1 < 0 {
        // `BitSet.set` with a negative index throws; the catch rethrows
        assert ipRange > 8 * |ipBase|;
        return Failure(FailedToGetRandomLocalAddress);
      }
      bitSet[bits - i - 1] := coins[i];
      i := i + 1;
    }
    assert i == if ipRange < 0 then 0 else ipRange;
    assert bitSet[..] == Flipped(base, i, coins);
    ghost var flippedBytes := BytesOf(Flipped(base, i, coins));
    assert Randomised(ipBase, ipRange, coins) == Success(flippedBytes);
    var exported := Trimmed(BytesOf(bitSet[..]));
    var byteArray := PadInto(exported, |ipBase|);
    PaddedTrimmed(BytesOf(bitSet[..]));
    return Success(byteArray[..]);
  }

  /** `new byte[len]` followed by `System.arraycopy(exported, 0, byteArray, 0, exported.length)`. */
  method PadInto(exported: seq<bv8>, len: nat) returns (byteArray: array<bv8>)
    requires |exported| <= len
    ensures fresh(byteArray)
    ensures byteArray[..] == Padded(exported, len)
  {
    byteArray := new bv8[len](_ => 0);
    var k := 0;
    while k < |exported|
      invariant 0 <= k <= |exported|
      invariant forall m :: 0 <= m < k ==> byteArray[m] == exported[m]
      invariant forall m :: k <= m < len ==> byteArray[m] == 0
    {
      byteArray[k] := exported[k];
      k := k + 1;
    }
  }

  /** With no range the base bytes come back unchanged. */
  lemma RangeZeroKeepsBase(base: seq<bv8>, coins: seq<bool>)
    ensures Randomised(base, 0, coins) == Success(base)
  {
    assert Flipped(BitsOf(base), 0, coins) == BitsOf(base);
    BytesOfBitsOf(base);
  }

  /** Only the top `ipRange` bit indices may differ from the base; the rest keep the base's bits. */
  lemma OnlyTopBitsChange(base: seq<bv8>, ipRange: int, coins: seq<bool>, j: nat)
    requires 0 <= ipRange <= |coins| && Randomised(base, ipRange, coins).Success?
    requires j < 8 * |base| - ipRange
    ensures BitsOf(Randomised(base, ipRange, coins).value)[j] == BitsOf(base)[j]
  {
    BitsOfBytesOf(Flipped(BitsOf(base), ipRange, coins));
  }

  /** The top `ipRange` bit indices hold the drawn bits, the highest index the first draw. */
  lemma TopBitsAreDrawn(base: seq<bv8>, ipRange: int, coins: seq<bool>, i: nat)
    requires 0 <= ipRange <= |coins| && Randomised(base, ipRange, coins).Success?
    requires i < ipRange
    ensures BitsOf(Randomised(base, ipRange, coins).value)[8 * |base| - 1 - i] == coins[i]
  {
    BitsOfBytesOf(Flipped(BitsOf(base), ipRange, coins));
  }

  /** With a range of `8 * k` bits, the first `|base| - k` bytes are the base's. */
  lemma WholeBytesKept(base: seq<bv8>, k: nat, coins: seq<bool>)
    requires 8 * k <= |coins| && k <= |base|
    ensures Randomised(base, 8 * k, coins).Success?
    ensures Randomised(base, 8 * k, coins).value[..|base| - k] == base[..|base| - k]
  {
    var bits := BitsOf(base);
    var flipped := Flipped(bits, 8 * k, coins);
    forall m | 0 <= m < |base| - k
      ensures ByteOf(flipped, m) == base[m]
    {
      assert flipped[8 * m .. 8 * m + 8] == bits[8 * m .. 8 * m + 8];
      BytesOfBitsOf(base);
      assert ByteOf(bits, m) == BytesOf(bits)[m];
    }
  }
}
