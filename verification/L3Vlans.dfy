/** The VLAN a routed VNI gets: a fold of the VNI range into the reserved band. */
module L3Vlans {
  import opened Text

  const Base := 4000
  const BandSize := 94
  const VniMin := 10000
  const VniMax := 20000

  /** The remainder as Go takes it, with the sign of the dividend. */
  function Rem(a: int, b: nat): int
    requires b > 0
  {
    if a >= 0 then a % b else -((-a) % b)
  }

  function L3VlanForVni(vni: int): (r: Option<int>)
    ensures r.Some? <==> VniMin <= vni <= VniMax
  {
    if vni < VniMin || vni > VniMax then None
    else Some(Base + 1 + Rem(Rem(vni - VniMin - 1, BandSize) + BandSize, BandSize))
  }

  /** The derived VLAN in plain terms. */
  lemma FoldIsModulo(vni: int)
    requires VniMin <= vni <= VniMax
    ensures L3VlanForVni(vni) == Some(Base + 1 + (vni - VniMin - 1) % BandSize)
  {
    if vni == VniMin { assert (-1) % BandSize == 93; }
  }

  /** Always in the band, hence never a VLAN a service may declare. */
  lemma InBand(vni: int)
    requires VniMin <= vni <= VniMax
    ensures Base < L3VlanForVni(vni).value <= 4094
  {
    FoldIsModulo(vni);
  }

  /** Two VNIs share a VLAN exactly when they differ by a multiple of the band. */
  lemma CollideExactly(a: int, b: int)
    requires VniMin <= a <= VniMax && VniMin <= b <= VniMax
    ensures L3VlanForVni(a) == L3VlanForVni(b) <==> (a - b) % BandSize == 0
  {
    FoldIsModulo(a);
    FoldIsModulo(b);
    var x, y := a - VniMin - 1, b - VniMin - 1;
    assert x == x / BandSize * BandSize + x % BandSize && y == y / BandSize * BandSize + y % BandSize;
    assert a - b == (x / BandSize - y / BandSize) * BandSize + (x % BandSize - y % BandSize);
    ModuloOf(x / BandSize - y / BandSize, x % BandSize - y % BandSize);
  }

  lemma ModuloOf(q: int, r: int)
    requires -BandSize < r < BandSize
    ensures (q * BandSize + r) % BandSize == 0 <==> r == 0
  {
  }

  /** Where the straight offset stays in the band, the fold is that offset, so no
      service already programmed is renumbered. */
  lemma StraightOffset(vni: int)
    requires VniMin < vni <= VniMin + BandSize
    ensures L3VlanForVni(vni) == Some(Base + (vni - VniMin))
  {
    FoldIsModulo(vni);
  }
}
