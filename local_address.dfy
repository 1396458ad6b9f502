/**
 * `getRandomLocalAddress` of src/utils/local-address-provider.ts: the local
 * IPv4 address (section 2.3 of RFC 791) to bind outgoing connections to. With
 * a positive range it keeps the first three octets of the base address and
 * draws the last one from `[base, min(255, base + range)]`. The environment
 * variables and `Math.random()` are parameters.
 */
module LocalAddressChoice {
  import opened Wrappers
  import opened Ascii

  /** The fallback address. */
  const DEFAULT_IP: string := "127.0.0.1"

  /** `IP_RANGE` once read: unset or empty (0), or what `parseInt` made of it, a number or `NaN`. */
  datatype RangeSetting = Unset | Parsed(n: int) | NotANumber

  /** The `{address, port}` result. */
  datatype LocalAddress = LocalAddress(address: string, port: int)

  /** `process.env.IP_BASE || '127.0.0.1'`: an unset or empty variable gives the default. */
  function BaseOf(ipBaseEnv: Option<string>): (base: string)
    ensures base == DEFAULT_IP || ipBaseEnv == Some(base)
    ensures base != ""
  {
    match ipBaseEnv
    case Some(s) => if s == "" then DEFAULT_IP else s
    case None => DEFAULT_IP
  }

  /** `ipRange <= 0`, false for `NaN`. */
  predicate NotPositive(r: RangeSetting) {
    r.Unset? || (r.Parsed? && r.n <= 0)
  }

  /** `Number(part)` on a dot-free part written in decimal digits; `None` is `NaN`. */
  function NumberOf(part: string): Option<nat> {
    if AllDigits(part) then Some(DigitsValue(part)) else None
  }

  /** A part that is valid: a number in `0..255`. */
  predicate IsOctet(part: string) {
    NumberOf(part).Some? && NumberOf(part).value <= 255
  }

  /** The four numbers of the parts of a valid address, `None` for an invalid one. */
  function OctetsOfParts(parts: seq<string>): (r: Option<seq<nat>>)
    ensures r.Some? <==> |parts| == 4 && forall i :: 0 <= i < 4 ==> IsOctet(parts[i])
    ensures r.Some? ==> |r.value| == 4
                        && forall i :: 0 <= i < 4 ==> r.value[i] <= 255 && Some(r.value[i]) == NumberOf(parts[i])
  {
    if |parts| == 4 && forall i :: 0 <= i < 4 ==> IsOctet(parts[i]) then
      Some(seq(4, i requires 0 <= i < 4 => NumberOf(parts[i]).value))
    else None
  }

  /** `ipBase.split('.').map(Number)` and the validity test on it. */
  function Octets(ip: string): Option<seq<nat>> {
    OctetsOfParts(Split(ip, '.'))
  }

  /** The dotted text of four numbers. */
  function Dotted(a: nat, b: nat, c: nat, d: string): string {
    DecimalText(a) + "." + DecimalText(b) + "." + DecimalText(c) + "." + d
  }

  function Min(a: int, b: int): int {
    if a < b then a else b
  }

  /** `Math.floor(draw * count)` for a draw in `[0, 1)`: an offset in `[0, count)`. */
  function Offset(draw: real, count: nat): (k: nat)
    requires 0.0 <= draw < 1.0 && count > 0
    ensures k < count
  {
    var x := draw * count as real;
    assert 0.0 <= x < count as real by {
      assert draw * count as real < 1.0 * count as real;
    }
    x.Floor
  }

  /** The last octet drawn above `b3` within `range`, never above 255. */
  function ChooseLastOctet(b3: nat, range: nat, draw: real): (last: nat)
    requires 0.0 <= draw < 1.0 && b3 <= 255 && range > 0
    ensures b3 <= last <= Min(255, b3 + range)
  {
    var lastOctetMax := Min(255, b3 + range);
    b3 + Offset(draw, lastOctetMax - b3 + 1)
  }

  /** `getRandomLocalAddress()`, with `IP_BASE`, `IP_RANGE` and `Math.random()` given. */
  function RandomLocalAddress(ipBaseEnv: Option<string>, ipRange: RangeSetting, draw: real): (a: LocalAddress)
    requires 0.0 <= draw < 1.0
    ensures a.port == 0
    ensures NotPositive(ipRange) ==> a.address == BaseOf(ipBaseEnv)
    ensures !NotPositive(ipRange) && Octets(BaseOf(ipBaseEnv)).None? ==> a.address == DEFAULT_IP
    ensures ipRange.NotANumber? && Octets(BaseOf(ipBaseEnv)).Some? ==>
              var o := Octets(BaseOf(ipBaseEnv)).value;
              a.address == Dotted(o[0], o[1], o[2], "NaN")
  {
    AddressFrom(BaseOf(ipBaseEnv), ipRange, draw)
  }

  /** The body of `getRandomLocalAddress()` once the base address is read. */
  function AddressFrom(ipBase: string, ipRange: RangeSetting, draw: real): LocalAddress
    requires 0.0 <= draw < 1.0
  {
    if NotPositive(ipRange) then LocalAddress(ipBase, 0)
    else
      match Octets(ipBase)
      case None => LocalAddress(DEFAULT_IP, 0)
      case Some(o) =>
        match ipRange
        // with `NaN` the minimum, the product and the floor are all `NaN`, and so is the octet
        case NotANumber => LocalAddress(Dotted(o[0], o[1], o[2], "NaN"), 0)
        case Parsed(n) => LocalAddress(Dotted(o[0], o[1], o[2], DecimalText(ChooseLastOctet(o[3], n, draw))), 0)
  }

  /** The dotted text of four dot-free parts splits back into them. */
  lemma SplitDotted(ta: string, tb: string, tc: string, td: string)
    requires '.' !in ta && '.' !in tb && '.' !in tc && '.' !in td
    ensures Split(ta + "." + tb + "." + tc + "." + td, '.') == [ta, tb, tc, td]
  {
    assert ta + "." + tb + "." + tc + "." + td == ta + "." + (tb + "." + (tc + "." + td));
    SplitWithout(td, '.');
    SplitJoin(tc, '.', td);
    SplitJoin(tb, '.', tc + "." + td);
    SplitJoin(ta, '.', tb + "." + (tc + "." + td));
  }

  /** The dotted text of four octets reads back as those octets. */
  lemma DottedReadsBack(a: nat, b: nat, c: nat, d: nat)
    requires a <= 255 && b <= 255 && c <= 255 && d <= 255
    ensures Octets(Dotted(a, b, c, DecimalText(d))) == Some([a, b, c, d])
  {
    var ta, tb, tc, td := DecimalText(a), DecimalText(b), DecimalText(c), DecimalText(d);
    DecimalTextHasNo(a, '.');
    DecimalTextHasNo(b, '.');
    DecimalTextHasNo(c, '.');
    DecimalTextHasNo(d, '.');
    SplitDotted(ta, tb, tc, td);
    DecimalTextRoundTrip(a);
    DecimalTextRoundTrip(b);
    DecimalTextRoundTrip(c);
    DecimalTextRoundTrip(d);
    var parts := [ta, tb, tc, td];
    assert NumberOf(ta) == Some(a) && NumberOf(tb) == Some(b) && NumberOf(tc) == Some(c) && NumberOf(td) == Some(d);
    assert Split(Dotted(a, b, c, td), '.') == parts;
    var r := OctetsOfParts(parts).value;
    assert r[0] == a && r[1] == b && r[2] == c && r[3] == d;
    assert r == [a, b, c, d];
  }

  /**
   * With a positive range and a valid base, the chosen
   * address keeps the base's first three octets and its last octet lies in
   * `[base, min(255, base + range)]`.
   */
  lemma ChosenAddressInRange(ipBaseEnv: Option<string>, n: int, draw: real)
    requires 0.0 <= draw < 1.0 && n > 0
    requires Octets(BaseOf(ipBaseEnv)).Some?
    ensures var o := Octets(BaseOf(ipBaseEnv)).value;
            var chosen := Octets(RandomLocalAddress(ipBaseEnv, Parsed(n), draw).address);
            && chosen.Some?
            && chosen.value[..3] == o[..3]
            && o[3] <= chosen.value[3] <= Min(255, o[3] + n)
  {
    ChosenFromBase(BaseOf(ipBaseEnv), n, draw);
  }

  /** `ChosenAddressInRange` for a base address already read. */
  lemma ChosenFromBase(ipBase: string, n: int, draw: real)
    requires 0.0 <= draw < 1.0 && n > 0
    requires Octets(ipBase).Some?
    ensures var o := Octets(ipBase).value;
            var chosen := Octets(AddressFrom(ipBase, Parsed(n), draw).address);
            && chosen.Some?
            && chosen.value[..3] == o[..3]
            && o[3] <= chosen.value[3] <= Min(255, o[3] + n)
  {
    var o := Octets(ipBase).value;
    var last := ChooseLastOctet(o[3], n, draw);
    assert AddressFrom(ipBase, Parsed(n), draw).address == Dotted(o[0], o[1], o[2], DecimalText(last));
    DottedReadsBack(o[0], o[1], o[2], last);
    assert [o[0], o[1], o[2], last][..3] == o[..3];
  }

  /** Every octet in the window is drawn by some draw in `[0, 1)`. */
  lemma EveryOctetReachable(b3: nat, range: nat, target: nat)
    requires b3 <= 255 && range > 0 && b3 <= target <= Min(255, b3 + range)
    ensures exists draw: real :: 0.0 <= draw < 1.0 && ChooseLastOctet(b3, range, draw) == target
  {
    var count := Min(255, b3 + range) - b3 + 1;
    var draw := (target - b3) as real / count as real;
    QuotientBelowOne((target - b3) as real, count as real);
    assert draw * count as real == (target - b3) as real;
    assert ChooseLastOctet(b3, range, draw) == target;
  }

  lemma QuotientBelowOne(x: real, c: real)
    requires 0.0 <= x < c
    ensures 0.0 <= x / c < 1.0
  {
    var q := x / c;
    assert q * c == x;
  }
}
