/** Device placement of a model and the cost it puts on each device
    (src/engine/scheduling.rs, the `Placement` and `ResolvedPlacement` types). */
module Placements {

  const U64_MAX: nat := 0xFFFF_FFFF_FFFF_FFFF

  type u64 = n: nat | n <= U64_MAX

  type GpuId = nat

  datatype Share = Share(gpu: GpuId, costMb: u64)

  /** The i-th of n even parts; the remainder goes to the first. */
  function EvenShare(totalMb: u64, n: nat, i: nat): u64
    requires n > 0
  {
    var base := totalMb / n;
    var remainder := totalMb - base * n;
    RemainderBounds(totalMb, n);
    if i == 0 then base + remainder else base
  }

  datatype Placement =
    | SingleDevice(gpu: GpuId)
    | TensorSplit(devices: seq<GpuId>)
  {
    /** A split placement spans at least two devices. */
    predicate WellFormed() {
      TensorSplit? ==> |devices| >= 2
    }

    function Gpus(): (gs: seq<GpuId>)
      requires WellFormed()
      ensures |gs| >= 1
    {
      match this
      case SingleDevice(g) => [g]
      case TensorSplit(gs) => gs
    }

    /** Uniform split; the remainder goes to the first device. */
    function PerDeviceCost(totalMb: u64): (shares: seq<Share>)
      requires WellFormed()
      ensures |shares| == |Gpus()|
      ensures forall i :: 0 <= i < |shares| ==> shares[i].gpu == Gpus()[i]
    {
      match this
      case SingleDevice(g) => [Share(g, totalMb)]
      case TensorSplit(gs) =>
        seq(|gs|, i requires 0 <= i < |gs| => Share(gs[i], EvenShare(totalMb, |gs|, i)))
    }
  }

  datatype ResolvedPlacement = Auto | Resolved(placement: Placement)

  function FromGpus(gpus: seq<GpuId>): (r: ResolvedPlacement)
    ensures r.Auto? <==> gpus == []
    ensures r.Resolved? ==> r.placement.WellFormed() && r.placement.Gpus() == gpus
  {
    if |gpus| == 0 then Auto
    else if |gpus| == 1 then Resolved(SingleDevice(gpus[0]))
    else Resolved(TensorSplit(gpus))
  }

  lemma RemainderBounds(total: nat, n: nat)
    requires n > 0
    ensures 0 <= total - (total / n) * n < n
    ensures (total / n) + (total - (total / n) * n) <= total
  {
    var q := total / n;
    DivisionRemainder(total, n);
    ProductAtLeast(q, n);
  }

  lemma DivisionRemainder(total: nat, n: nat)
    requires n > 0
    ensures total == (total / n) * n + total % n && 0 <= total % n < n
  {
  }

  lemma ProductAtLeast(q: nat, n: nat)
    requires n > 0
    ensures q <= q * n
  {
    assert q * n == q * (n - 1) + q;
  }

  predicate Distinct<T(==)>(s: seq<T>) {
    forall i, j :: 0 <= i < j < |s| ==> s[i] != s[j]
  }

  function TotalCost(shares: seq<Share>): nat {
    if shares == [] then 0 else TotalCost(shares[..|shares| - 1]) + shares[|shares| - 1].costMb
  }

  lemma {:induction false} UniformTail(shares: seq<Share>, first: nat, base: nat)
    requires |shares| >= 1
    requires shares[0].costMb == first
    requires forall i :: 1 <= i < |shares| ==> shares[i].costMb == base
    ensures TotalCost(shares) == first + base * (|shares| - 1)
    decreases |shares|
  {
    if |shares| > 1 {
      UniformTail(shares[..|shares| - 1], first, base);
      assert base * (|shares| - 1) == base * (|shares| - 2) + base;
    }
  }

  /** Nothing is lost or invented by splitting: for every total and every
      number of devices the shares add up to the total, and no two devices
      after the first get different shares. */
  lemma SharesAddUp(p: Placement, totalMb: u64)
    requires p.WellFormed()
    ensures TotalCost(p.PerDeviceCost(totalMb)) == totalMb
    ensures forall i, j :: 1 <= i < j < |p.PerDeviceCost(totalMb)| ==>
              p.PerDeviceCost(totalMb)[i].costMb == p.PerDeviceCost(totalMb)[j].costMb
    ensures forall i :: 1 <= i < |p.PerDeviceCost(totalMb)| ==>
              0 <= p.PerDeviceCost(totalMb)[0].costMb - p.PerDeviceCost(totalMb)[i].costMb < |p.Gpus()|
  {
    var shares := p.PerDeviceCost(totalMb);
    match p
    case SingleDevice(_) =>
      assert shares[..0] == [];
    case TensorSplit(gs) =>
      var n := |gs|;
      var base := totalMb / n;
      var remainder := totalMb - base * n;
      RemainderBounds(totalMb, n);
      UniformTail(shares, base + remainder, base);
      assert base * (n - 1) == base * n - base;
  }
}
