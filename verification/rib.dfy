/** Edge names and neighbour addresses: they are only compared, for equality and (names) order. */
module Edges {
  type EdgeId = nat
  type Addr = nat
  // Which edge a neighbour address belongs to.
  type Table = map<Addr, EdgeId>
}

/** The normalized route events every RIB source is mapped to. */
module Rib {
  import opened Edges

  datatype Family = IPv4 | IPv6

  // NoPrefix is the zero prefix, which is not valid.
  datatype Prefix = NoPrefix | Prefix(family: Family, address: nat, bits: nat)

  datatype LargeCommunity = LargeCommunity(globalAdmin: nat, localData1: nat, localData2: nat)

  datatype Event =
    | PathUpdate(edge: EdgeId, family: Family, prefix: Prefix, communities: seq<LargeCommunity>)
    | Withdrawal(edge: EdgeId, family: Family, prefix: Prefix, communities: seq<LargeCommunity>)
    | EOR(edge: EdgeId, family: Family)
    | PeerUp(edge: EdgeId)
    | PeerDown(edge: EdgeId)

  // Host routes are the /32 and /128 prefixes.
  predicate IsHost(p: Prefix) {
    p.Prefix? && p.bits == match p.family case IPv4 => 32 case IPv6 => 128
  }

  function FamilyOf(p: Prefix): Family {
    if p.Prefix? then p.family else IPv4
  }

  predicate IsPath(e: Event) {
    e.PathUpdate? || e.Withdrawal?
  }

  predicate IsSession(e: Event) {
    e.PeerUp? || e.PeerDown?
  }

  // Whether the event carries the canary's large community.
  predicate IsCanary(canary: LargeCommunity, e: Event) {
    IsPath(e) && canary in e.communities
  }

  // ---- what a prefix stands for ----

  // How many bits the family's addresses have.
  function Width(f: Family): nat {
    match f
    case IPv4 => 32
    case IPv6 => 128
  }

  function Power(n: nat): (r: nat)
    ensures r >= 1
  {
    if n == 0 then 1 else 2 * Power(n - 1)
  }

  // A prefix of the family's address space; addresses are numbers.
  predicate WellFormed(p: Prefix) {
    p.Prefix? && p.bits <= Width(p.family) && p.address < Power(Width(p.family))
  }

  // Two addresses of so many bits agree on the leading ones.
  predicate SameLeading(a: nat, b: nat, leading: nat, width: nat)
    requires leading <= width
  {
    a / Power(width - leading) == b / Power(width - leading)
  }

  // The addresses that agree with the prefix on its leading bits.
  predicate Covers(p: Prefix, a: nat)
    requires WellFormed(p)
  {
    a < Power(Width(p.family)) && SameLeading(a, p.address, p.bits, Width(p.family))
  }

  lemma {:induction false} PowerSplits(m: nat, n: nat)
    ensures Power(m + n) == Power(m) * Power(n)
  {
    if m > 0 {
      PowerSplits(m - 1, n);
      assert 2 * (Power(m - 1) * Power(n)) == (2 * Power(m - 1)) * Power(n);
    }
  }

  lemma Multiple(d: int, m: nat)
    ensures d >= 1 ==> d * m >= m
    ensures d <= -1 ==> d * m <= 0 - m
  {
    if d >= 1 {
      assert d * m == m + (d - 1) * m;
    } else if d <= -1 {
      assert d * m == (d + 1) * m - m;
    }
  }

  lemma Quotient(a: nat, m: nat, q: nat, r: nat)
    requires m > 0 && r < m && a == q * m + r
    ensures a / m == q
  {
    var d := a / m - q;
    assert a == (a / m) * m + a % m;
    assert d * m == r - a % m;
    Multiple(d, m);
  }

  // A block of at least two addresses holds its first two.
  lemma FirstTwo(address: nat, blocks: nat, m: nat) returns (first: nat)
    requires m >= 2 && address < blocks * m
    ensures first + 1 < blocks * m && first / m == address / m && (first + 1) / m == address / m
  {
    var q := address / m;
    first := q * m;
    assert address == first + address % m;
    FirstOfBlock(address, blocks, m, q);
    Quotient(first, m, q, 0);
    Quotient(first + 1, m, q, 1);
  }

  lemma FirstOfBlock(address: nat, blocks: nat, m: nat, q: nat)
    requires m >= 2 && q * m <= address < blocks * m
    ensures q * m + 1 < blocks * m
  {
    assert (blocks - q) * m == blocks * m - q * m;
    Multiple(blocks - q, m);
  }

  lemma TwoOrMore(n: nat)
    requires n > 0
    ensures Power(n) >= 2
  {
    assert Power(n) == 2 * Power(n - 1);
  }

  lemma SeveralAgree(address: nat, leading: nat, width: nat) returns (first: nat)
    requires leading < width && address < Power(width)
    ensures first + 1 < Power(width)
    ensures SameLeading(first, address, leading, width) && SameLeading(first + 1, address, leading, width)
  {
    PowerSplits(leading, width - leading);
    assert leading + (width - leading) == width;
    TwoOrMore(width - leading);
    first := FirstTwo(address, Power(leading), Power(width - leading));
  }

  lemma AllBitsAgree(a: nat, b: nat, width: nat)
    requires SameLeading(a, b, width, width)
    ensures a == b
  {
    assert Power(width - width) == 1;
  }

  /** A host prefix is one that stands for a single address, and its family is that address's. */
  lemma HostsAreSingleAddresses(p: Prefix)
    requires WellFormed(p)
    ensures IsHost(p) <==> forall a, b :: Covers(p, a) && Covers(p, b) ==> a == b
    ensures FamilyOf(p) == p.family
  {
    if p.bits < Width(p.family) {
      var first := SeveralAgree(p.address, p.bits, Width(p.family));
      assert Covers(p, first) && Covers(p, first + 1);
    } else {
      forall a, b | Covers(p, a) && Covers(p, b)
        ensures a == b
      {
        AllBitsAgree(a, p.address, p.bits);
        AllBitsAgree(b, p.address, p.bits);
      }
    }
  }
}
