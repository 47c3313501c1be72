/**
  IP addresses and prefixes as the server uses them (net/netip through internal/app/http.go):
  bounded integers. Reading and printing their text is left to the callers.
 */
module Prefixes {

  function Pow2(n: nat): (p: nat)
    ensures p > 0
  {
    if n == 0 then 1 else 2 * Pow2(n - 1)
  }

  const TWO_32 := 0x1_0000_0000
  const TWO_128 := TWO_32 * TWO_32 * TWO_32 * TWO_32
  const MAPPED := 0xffff  // bits 80 to 95 of an IPv4-mapped address (section 2.5.5.2 of RFC 4291)

  datatype Addr = V4(n: nat) | V6(n: nat, zone: string)

  predicate ValidAddr(a: Addr) {
    if a.V4? then a.n < TWO_32 else a.n < TWO_128
  }

  function Width(a: Addr): nat {
    if a.V4? then 32 else 128
  }

  predicate Is4In6(a: Addr) {
    a.V6? && a.n / TWO_32 == MAPPED
  }

  /** Addr.Unmap: an IPv4-mapped address becomes the IPv4 address, without its zone. */
  function Unmap(a: Addr): (r: Addr)
    ensures !Is4In6(r) && (ValidAddr(a) ==> ValidAddr(r))
  {
    if Is4In6(a) then V4(a.n % TWO_32) else a
  }

  datatype Prefix = Prefix(addr: Addr, bits: nat)

  predicate ValidPrefix(p: Prefix) {
    ValidAddr(p.addr) && p.bits <= Width(p.addr) && (p.addr.V6? ==> p.addr.zone == "")
  }

  /** PrefixFrom drops the zone. */
  function PrefixFrom(a: Addr, bits: nat): Prefix {
    Prefix(if a.V6? then a.(zone := "") else a, bits)
  }

  /** The size of the block of addresses that share the prefix. */
  function Block(p: Prefix): (b: nat)
    requires p.bits <= Width(p.addr)
    ensures b > 0
  {
    Pow2(Width(p.addr) - p.bits)
  }

  function Masked(p: Prefix): Prefix
    requires p.bits <= Width(p.addr)
  {
    DivMasked(p.addr.n, Block(p));
    p.(addr := p.addr.(n := p.addr.n - p.addr.n % Block(p)))
  }

  /** Prefix.Contains: same family, no zone, same leading bits. */
  predicate Contains(p: Prefix, a: Addr)
    requires p.bits <= Width(p.addr)
  {
    && (p.addr.V4? <==> a.V4?)
    && (a.V6? ==> a.zone == "")
    && a.n / Block(p) == p.addr.n / Block(p)
  }

  lemma AtLeastOnce(b: nat, d: int)
    requires d >= 1
    ensures b * d >= b
  {
    assert b * d == b * (d - 1) + b;
  }

  lemma DivUnique(n: nat, b: nat, q: nat, r: nat)
    requires b > 0 && r < b && n == b * q + r
    ensures n / b == q
  {
    var q', r' := n / b, n % b;
    assert b * (q - q') == b * q - b * q' == r' - r;
    if q' < q {
      AtLeastOnce(b, q - q');
    } else if q < q' {
      AtLeastOnce(b, q' - q);
    }
  }

  lemma DivMasked(n: nat, b: nat)
    requires b > 0
    ensures n % b <= n && (n - n % b) / b == n / b
  {
    var q := n / b;
    assert n - n % b == b * q;
    DivUnique(b * q, b, q, 0);
  }

  /** Masking the host bits of a prefix changes nothing for matching. */
  lemma MaskedContains(p: Prefix, a: Addr)
    requires p.bits <= Width(p.addr)
    ensures Masked(p).bits <= Width(Masked(p).addr) && Contains(Masked(p), a) == Contains(p, a)
  {
    DivMasked(p.addr.n, Block(p));
  }

  lemma DivRange(n: nat, m: nat, b: nat)
    requires b > 0
    ensures n / b == m / b <==> m - m % b <= n < m - m % b + b
  {
    var q, q' := m / b, n / b;
    assert m - m % b == b * q && n - n % b == b * q';
    if q < q' {
      AtLeastOnce(b, q' - q);
      assert b * (q' - q) == b * q' - b * q;
    } else if q' < q {
      AtLeastOnce(b, q - q');
      assert b * (q - q') == b * q - b * q';
    }
  }

  /** A prefix contains exactly the zoneless addresses of its family in one block of 2^(width - bits). */
  lemma ContainsIsBlock(p: Prefix, a: Addr)
    requires p.bits <= Width(p.addr)
    ensures Contains(p, a) <==>
      && (p.addr.V4? <==> a.V4?) && (a.V6? ==> a.zone == "")
      && Masked(p).addr.n <= a.n < Masked(p).addr.n + Pow2(Width(p.addr) - p.bits)
    ensures Masked(p).addr.n <= p.addr.n < Masked(p).addr.n + Pow2(Width(p.addr) - p.bits)
    ensures Masked(p).addr.n % Pow2(Width(p.addr) - p.bits) == 0
  {
    DivRange(a.n, p.addr.n, Block(p));
    DivMasked(p.addr.n, Block(p));
    FirstOfBlock(p.addr.n, Block(p));
  }

  lemma FirstOfBlock(n: nat, b: nat)
    requires b > 0
    ensures n % b <= n && (n - n % b) % b == 0
  {
    DivMasked(n, b);
    assert n - n % b == b * (n / b);
    assert (n - n % b) == b * ((n - n % b) / b) + (n - n % b) % b;
  }

  // ---- IPv4-mapped prefixes ----

  lemma {:induction false} Pow2Sum(a: nat, b: nat)
    ensures Pow2(a) * Pow2(b) == Pow2(a + b)
  {
    if a == 0 {
    } else {
      Pow2Sum(a - 1, b);
    }
  }

  lemma Pow2Of32()
    ensures Pow2(32) == TWO_32
  {
    Pow2Of8();
    Pow2Sum(8, 8);
    Pow2Sum(16, 16);
  }

  lemma Pow2Of8()
    ensures Pow2(8) == 256
  {
    assert Pow2(4) == 16;
    Pow2Sum(4, 4);
  }

  lemma DivShift(q: nat, b: nat, a: nat)
    requires b > 0
    ensures (q * b + a) / b == q + a / b
  {
    assert q * b + a == b * (q + a / b) + a % b;
    DivUnique(q * b + a, b, q + a / b, a % b);
  }

  /** The IPv4-mapped form of an IPv4 address. */
  function MappedForm(n: nat): nat {
    0xffff_0000_0000 + n
  }

  /** Unmap turns the mapped form of an IPv4 address, in any zone, into that address, and nothing else. */
  lemma UnmapIsExact(a: Addr)
    ensures Is4In6(a) <==> exists n :: 0 <= n < TWO_32 && a == V6(MappedForm(n), if a.V6? then a.zone else "")
    ensures forall n, zone | 0 <= n < TWO_32 :: Unmap(V6(MappedForm(n), zone)) == V4(n)
    ensures !Is4In6(a) ==> Unmap(a) == a
  {
    if Is4In6(a) {
      assert a == V6(MappedForm(a.n % TWO_32), a.zone);
    }
  }

  lemma MulAssoc(a: nat, b: nat, c: nat)
    ensures (a * b) * c == a * (b * c)
  {
  }

  /** Leading bits of mapped addresses: the marker, then those of the IPv4 address. */
  lemma MappedBits(n: nat, k: nat)
    requires k <= 32
    ensures MappedForm(n) / Pow2(32 - k) == MAPPED * Pow2(k) + n / Pow2(32 - k)
  {
    Pow2Of32();
    Pow2Sum(k, 32 - k);
    MulAssoc(MAPPED, Pow2(k), Pow2(32 - k));
    DivShift(MAPPED * Pow2(k), Pow2(32 - k), n);
  }

  /** The plain form of an IPv4-mapped prefix of at least 96 bits. */
  function Plain(p: Prefix): Prefix
    requires Is4In6(p.addr) && p.bits >= 96
  {
    PrefixFrom(Unmap(p.addr), p.bits - 96)
  }

  /**
    Rewriting an IPv4-mapped prefix of length 96 + k to the IPv4 prefix of length k keeps the
    members: an IPv4 address is in the latter exactly when its mapped form is in the former.
   */
  lemma PlainKeepsMembers(p: Prefix, n: nat)
    requires Is4In6(p.addr) && ValidPrefix(p) && p.bits >= 96 && n < TWO_32
    ensures Plain(p).bits <= 32 && ValidPrefix(Plain(p))
    ensures Contains(Plain(p), V4(n)) <==> Contains(p, V6(MappedForm(n), ""))
  {
    var k := p.bits - 96;
    var low := p.addr.n % TWO_32;
    assert p.addr.n == MappedForm(low);
    MappedBits(n, k);
    MappedBits(low, k);
  }

  /** Shorter mapped prefixes have no IPv4 form: they reach addresses outside the mapped range. */
  lemma ShortPrefixEscapes(p: Prefix)
    requires Is4In6(p.addr) && ValidPrefix(p) && p.bits < 96
    ensures exists a :: ValidAddr(a) && Contains(p, a) && !Is4In6(a)
  {
    var m := Masked(p).addr.n;
    Pow2Grows(33, 128 - p.bits);
    DivMasked(p.addr.n, Block(p));
    BlockIsEven(p);
    assert Contains(p, V6(m, ""));
    assert ValidAddr(V6(m, "")) && !Is4In6(V6(m, ""));
  }

  /** The block starts at a multiple of 2^33, so its first 2^32 addresses are not marked 0xffff. */
  lemma BlockIsEven(p: Prefix)
    requires Is4In6(p.addr) && ValidPrefix(p) && p.bits < 96
    ensures Masked(p).addr.n / TWO_32 % 2 == 0
  {
    Pow2Sum(33, 128 - p.bits - 33);
    assert Pow2(33) == 2 * TWO_32 by {
      Pow2Of32();
    }
    MultipleIsEven(p.addr.n, Block(p), Pow2(128 - p.bits - 33));
  }

  lemma MultipleIsEven(n: nat, b: nat, c: nat)
    requires b > 0 && b == (2 * TWO_32) * c
    ensures n % b <= n && (n - n % b) / TWO_32 % 2 == 0
  {
    var q := n / b;
    DivMasked(n, b);
    assert n - n % b == b * q;
    assert ((2 * TWO_32) * c) * q == TWO_32 * (2 * (c * q));
    DivUnique(n - n % b, TWO_32, 2 * (c * q), 0);
  }

  lemma {:induction false} Pow2Grows(a: nat, b: nat)
    requires a <= b
    ensures Pow2(a) <= Pow2(b)
  {
    Pow2Sum(a, b - a);
    assert Pow2(b - a) >= 1;
  }
}
