/** Port allocation: the first free port of the configured range. */
module Ports {
  import opened Config
  import opened Wrappers

  datatype AllocationError = NoFreePort

  /** The first port of `lo..hi` (inclusive) that is not in use. */
  function FirstFreeFrom(lo: int, hi: int, used: set<int>): (r: Option<int>)
    ensures r.Some? ==> lo <= r.value <= hi && r.value !in used && forall p | lo <= p < r.value :: p in used
    ensures r.None? <==> forall p | lo <= p <= hi :: p in used
    decreases hi - lo + 1
  {
    if lo > hi then None
    else if lo !in used then Some(lo)
    else FirstFreeFrom(lo + 1, hi, used)
  }

  function FirstFree(used: set<int>, cfg: Settings): Option<int> {
    FirstFreeFrom(cfg.portStart, cfg.portEnd, used)
  }

  /** The search loop. It never picks a used port, always picks the lowest free one, and fails only
      when the whole range is used. */
  method AllocatePort(used: set<int>, cfg: Settings) returns (r: Result<int, AllocationError>)
    ensures r.Success? ==> r.value in cfg.PortRange() - used && forall p | p in cfg.PortRange() - used :: r.value <= p
    ensures r.Failure? <==> cfg.PortRange() <= used
    ensures r == match FirstFree(used, cfg) case Some(p) => Success(p) case None => Failure(NoFreePort)
  {
    var p := cfg.portStart;
    while p <= cfg.portEnd
      invariant forall q | cfg.portStart <= q < p :: q in used
      invariant FirstFree(used, cfg) == FirstFreeFrom(p, cfg.portEnd, used)
      decreases cfg.portEnd - p + 1
    {
      if p !in used {
        return Success(p);
      }
      p := p + 1;
    }
    return Failure(NoFreePort);
  }

  /** Finite-set comparison used by the pigeonhole arguments. */
  lemma {:induction false} SubsetSize(a: set<int>, b: set<int>)
    requires a <= b
    ensures |a| <= |b|
    ensures |a| == |b| <==> a == b
  {
    assert b == a + (b - a);
    assert |b| == |a| + |b - a|;
    if |a| == |b| {
      assert |b - a| == 0;
      assert b - a == {};
    }
  }
}
