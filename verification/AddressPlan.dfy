/** Choice of the placeholder target address from a network's IPv4 prefixes
    (bootstrapTargetIP in controller/stackitcluster_infrastructure.go). */
module AddressPlan {

  function Pow2(n: nat): (p: nat)
    ensures p > 0
  {
    if n == 0 then 1 else 2 * Pow2(n - 1)
  }

  const AddressSpace: nat := 0x1_0000_0000
  const Fallback: nat := 0x0A00_0001 // 10.0.0.1

  /** A parsed entry of network.IPv4Prefixes; V4 keeps host bits, as ParsePrefix does. */
  datatype AnyPrefix = Unparsable | V6 | V4(address: nat, bits: nat)

  type Prefix = p: AnyPrefix | p.V4? ==> p.address < AddressSpace && p.bits <= 32 witness Unparsable

  /** netip.Addr restricted to IPv4; Next past the last address is invalid for good. */
  datatype Addr = Invalid | Addr4(n: nat)

  function Next(a: Addr): Addr
  {
    if a.Addr4? && a.n + 1 < AddressSpace then Addr4(a.n + 1) else Invalid
  }

  function Size(bits: nat): (s: nat)
    requires bits <= 32
    ensures s > 0
  {
    Pow2(32 - bits)
  }

  /** a with its low k bits cleared. */
  function ClearLow(a: nat, k: nat): nat
  {
    if k == 0 then a else 2 * ClearLow(a / 2, k - 1)
  }

  /** prefix.Masked().Addr(): the network address. */
  function Network(address: nat, bits: nat): nat
    requires bits <= 32
  {
    ClearLow(address, 32 - bits)
  }

  predicate Contains(p: Prefix, a: Addr)
    requires p.V4?
  {
    a.Addr4? && Network(a.n, p.bits) == Network(p.address, p.bits)
  }

  /** The prefix has a tenth host address: sections of at most 28 leading bits. */
  predicate Roomy(p: Prefix)
  {
    p.V4? && p.bits <= 28
  }

  // --------------------------------------------------------- prefix arithmetic

  lemma Pow2Monotone(a: nat, b: nat)
    requires a <= b
    ensures Pow2(a) <= Pow2(b)
  {
  }

  lemma Pow2Values()
    ensures Pow2(3) == 8 && Pow2(4) == 16 && Pow2(32) == AddressSpace
  {
    assert Pow2(8) == 256;
    assert Pow2(16) == 0x1_0000;
    assert Pow2(24) == 0x100_0000;
  }

  /** Clearing forgets exactly the offset inside the block. */
  lemma ClearLowOfOffset(a: nat, k: nat, offset: nat)
    requires offset < Pow2(k)
    ensures ClearLow(ClearLow(a, k) + offset, k) == ClearLow(a, k)
  {
    if k > 0 {
      ClearLowOfOffset(a / 2, k - 1, offset / 2);
      assert (ClearLow(a, k) + offset) / 2 == ClearLow(a / 2, k - 1) + offset / 2;
    }
  }

  lemma ClearLowBounds(a: nat, k: nat)
    ensures ClearLow(a, k) <= a < ClearLow(a, k) + Pow2(k)
  {
  }

  /** A block of size 2^k below 2^n ends at or below 2^n. */
  lemma BlockInsideSpace(a: nat, k: nat, n: nat)
    requires k <= n && a < Pow2(n)
    ensures ClearLow(a, k) + Pow2(k) <= Pow2(n)
  {
    if k > 0 { BlockInsideSpace(a / 2, k - 1, n - 1); }
  }

  /** Ten steps from the network address stay in the prefix exactly when it is
      roomy, and then they reach an address that is neither the network nor the
      broadcast address. */
  lemma {:induction false} TenthAddress(p: Prefix)
    requires p.V4?
    ensures Network(p.address, p.bits) + Size(p.bits) <= AddressSpace
    ensures Roomy(p) ==> Network(p.address, p.bits) + 10 < AddressSpace
    ensures Roomy(p) ==> Contains(p, Addr4(Network(p.address, p.bits) + 10))
    ensures !Roomy(p) ==> !Contains(p, Addr4(Network(p.address, p.bits) + 10))
    ensures Roomy(p) ==> Network(p.address, p.bits) + 10 < Network(p.address, p.bits) + Size(p.bits) - 1
    ensures Roomy(p) ==> Network(p.address, p.bits) + 10 != Fallback
  {
    Pow2Values();
    var k := 32 - p.bits;
    var base := Network(p.address, p.bits);
    BlockInsideSpace(p.address, k, 32);
    if Roomy(p) {
      Pow2Monotone(4, k);
      ClearLowOfOffset(p.address, k, 10);
      assert base == 2 * ClearLow(p.address / 2, k - 1); // even, and 10.0.0.1 is odd
    } else {
      Pow2Monotone(k, 3);
      ClearLowBounds(base + 10, k);
    }
  }

  /** First roomy IPv4 prefix of the list. */
  ghost predicate Chosen(prefixes: seq<Prefix>, i: nat)
  {
    i < |prefixes| && Roomy(prefixes[i]) && forall j :: 0 <= j < i ==> !Roomy(prefixes[j])
  }

  /** The address the placeholder target gets. */
  function Placeholder(prefixes: seq<Prefix>): nat
  {
    if prefixes == [] then Fallback
    else if Roomy(prefixes[0]) then Network(prefixes[0].address, prefixes[0].bits) + 10
    else Placeholder(prefixes[1..])
  }

  /** It is the tenth address of the first roomy prefix, strictly between that
      prefix's network and broadcast addresses, and 10.0.0.1 exactly without one. */
  lemma {:induction false} PlaceholderMeaning(prefixes: seq<Prefix>)
    ensures Placeholder(prefixes) < AddressSpace
    ensures forall i: nat :: Chosen(prefixes, i) ==>
              var base := Network(prefixes[i].address, prefixes[i].bits);
              Placeholder(prefixes) == base + 10 && base + 10 < base + Size(prefixes[i].bits) - 1
    ensures Placeholder(prefixes) == Fallback <==> forall p :: p in prefixes ==> !Roomy(p)
  {
    if prefixes != [] {
      var head, rest := prefixes[0], prefixes[1..];
      assert prefixes == [head] + rest;
      if Roomy(head) {
        TenthAddress(head);
        assert forall i: nat :: Chosen(prefixes, i) ==> i == 0;
      } else {
        PlaceholderMeaning(rest);
        forall i: nat | Chosen(prefixes, i) ensures i > 0 && Chosen(rest, i - 1) && rest[i - 1] == prefixes[i] {
          forall j | 0 <= j < i - 1 ensures !Roomy(rest[j]) { assert rest[j] == prefixes[j + 1]; }
        }
      }
    }
  }

  /** bootstrapTargetIP, on a network's prefix list; a nil network has the empty list. */
  method BootstrapTargetIP(prefixes: seq<Prefix>) returns (ip: nat)
    ensures ip == Placeholder(prefixes)
  {
    for i := 0 to |prefixes|
      invariant Placeholder(prefixes) == Placeholder(prefixes[i..])
    {
      var prefix := prefixes[i];
      assert prefixes[i..][0] == prefix && prefixes[i..][1..] == prefixes[i + 1..];
      if !prefix.V4? { continue; }
      TenthAddress(prefix);
      ghost var base := Network(prefix.address, prefix.bits);
      var address := Addr4(Network(prefix.address, prefix.bits));
      for k := 0 to 10
        invariant address == if base + k < AddressSpace then Addr4(base + k) else Invalid
      {
        address := Next(address);
      }
      if Contains(prefix, address) { return address.n; }
    }
    return Fallback;
  }

  // ------------------------------------------------------------------- notation

  function Decimal(n: nat): (s: string)
    ensures s != ""
  {
    if n < 10 then [['0', '1', '2', '3', '4', '5', '6', '7', '8', '9'][n]]
    else Decimal(n / 10) + Decimal(n % 10)
  }

  function Dotted(a: nat): (s: string)
    ensures s != ""
  {
    Decimal(a / 0x100_0000) + "." + Decimal(a / 0x1_0000 % 256) + "." + Decimal(a / 256 % 256) + "." + Decimal(a % 256)
  }

  predicate Numeral(s: string) { s != "" && forall i :: 0 <= i < |s| ==> '0' <= s[i] <= '9' }

  /** The number that a numeral stands for. */
  function Value(s: string): nat
    requires forall i :: 0 <= i < |s| ==> '0' <= s[i] <= '9'
  {
    if s == "" then 0 else 10 * Value(s[..|s| - 1]) + (s[|s| - 1] as int - '0' as int)
  }

  lemma DecimalReads(n: nat)
    ensures Numeral(Decimal(n)) && Value(Decimal(n)) == n && (n < 10 ==> |Decimal(n)| == 1)
  {
    var s := Decimal(n);
    if n < 10 {
      assert s[..0] == "";
    } else {
      DecimalReads(n / 10);
      DecimalReads(n % 10);
      var tens, ones := Decimal(n / 10), Decimal(n % 10);
      assert s == tens + ones && s[..|s| - 1] == tens && ones[..0] == "" && Value(ones) == ones[0] as int - '0' as int;
    }
  }

  /** Dotted notation is four octets, and they are the address's own. */
  lemma {:induction false} DottedReads(a: nat) returns (p: string, q: string, r: string, t: string)
    requires a < AddressSpace
    ensures Dotted(a) == p + "." + q + "." + r + "." + t
    ensures Numeral(p) && Numeral(q) && Numeral(r) && Numeral(t)
    ensures Value(p) < 256 && Value(q) < 256 && Value(r) < 256 && Value(t) < 256
    ensures ((Value(p) * 256 + Value(q)) * 256 + Value(r)) * 256 + Value(t) == a
  {
    p, q, r, t := Decimal(a / 0x100_0000), Decimal(a / 0x1_0000 % 256), Decimal(a / 256 % 256), Decimal(a % 256);
    DecimalReads(a / 0x100_0000);
    DecimalReads(a / 0x1_0000 % 256);
    DecimalReads(a / 256 % 256);
    DecimalReads(a % 256);
    Octets(a);
    hide Decimal, Value, Numeral;
  }

  lemma Octets(a: nat)
    requires a < AddressSpace
    ensures a / 0x100_0000 < 256
    ensures ((a / 0x100_0000 * 256 + a / 0x1_0000 % 256) * 256 + a / 256 % 256) * 256 + a % 256 == a
  {
    var b := a / 256;
    var d := b / 256;
    assert a / 0x1_0000 == d && a / 0x100_0000 == d / 256;
  }

  /** ip is what the placeholder should get: the tenth address of the first roomy
      prefix, or 10.0.0.1. */
  ghost predicate IsPlaceholder(prefixes: seq<Prefix>, ip: nat)
  {
    && (forall i: nat :: Chosen(prefixes, i) ==> ip == Network(prefixes[i].address, prefixes[i].bits) + 10)
    && ((forall p :: p in prefixes ==> !Roomy(p)) ==> ip == 0x0A00_0001)
  }
}
