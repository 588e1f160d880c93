/** Client addresses and the subnets they belong to. */
module Net {
  type Octet = n: nat | n < 0x100
  type Segment = n: nat | n < 0x1_0000

  datatype IpAddr =
    | V4(o0: Octet, o1: Octet, o2: Octet, o3: Octet)
    | V6(s0: Segment, s1: Segment, s2: Segment, s3: Segment,
         s4: Segment, s5: Segment, s6: Segment, s7: Segment)

  /** Same family and same /24 (IPv4) or /64 (IPv6). */
  predicate SameSubnet(a: IpAddr, b: IpAddr) {
    match (a, b)
    case (V4(_, _, _, _), V4(_, _, _, _)) => a.o0 == b.o0 && a.o1 == b.o1 && a.o2 == b.o2
    case (V6(_, _, _, _, _, _, _, _), V6(_, _, _, _, _, _, _, _)) =>
      a.s0 == b.s0 && a.s1 == b.s1 && a.s2 == b.s2 && a.s3 == b.s3
    case _ => false
  }

  const V4_FLAG: nat := 0x8000_0000_0000_0000_0000_0000_0000_0000

  /** The u128 key of an address's subnet; `(x << n) | y` with y below 2^n is written x * 2^n + y. */
  function SubnetKey(ip: IpAddr): nat {
    match ip
    case V4(o0, o1, o2, _) => o0 * 0x1_0000 + o1 * 0x100 + o2 + V4_FLAG
    case V6(s0, s1, s2, s3, _, _, _, _) =>
      ((s0 * 0x1_0000 + s1) * 0x1_0000 + s2) * 0x1_0000 + s3
  }

  /** Two addresses share a key exactly when they share a subnet. */
  lemma SubnetKeyPartition(a: IpAddr, b: IpAddr)
    ensures SubnetKey(a) == SubnetKey(b) <==> SameSubnet(a, b)
  {
    match (a, b)
    case (V6(s0, s1, s2, s3, _, _, _, _), V6(t0, t1, t2, t3, _, _, _, _)) =>
      Digits(s0 * 0x1_0000 + s1, s2, t0 * 0x1_0000 + t1, t2);
    case _ =>
  }

  lemma Digits(x: nat, d: Segment, y: nat, e: Segment)
    ensures x * 0x1_0000 + d == y * 0x1_0000 + e <==> x == y && d == e
  {
  }
}
