/** The arithmetic part of the settings: the port range and the session lifetimes. */
module Config {
  /** How long a placeholder row protects a create that is still running. */
  const PLACEHOLDER_SECONDS := 3600

  datatype Settings = Settings(
    portStart: int,
    portEnd: int,
    ttlMin: int,
    ttlDefault: int,
    ttlMax: int,
    ttlResetAdd: int
  ) {
    /** What the validators accept. `ttlResetAdd` is not validated at all. */
    predicate Accepted() {
      && portStart <= portEnd
      && ttlMin <= ttlDefault <= ttlMax
    }

    function PortRange(): set<int> {
      Range(portStart, portEnd)
    }
  }

  /** The ports from `lo` to `hi`, both included. */
  function Range(lo: int, hi: int): (s: set<int>)
    ensures forall p :: p in s <==> lo <= p <= hi
    ensures |s| == if lo <= hi then hi - lo + 1 else 0
    decreases hi - lo + 1
  {
    if lo > hi then {} else Range(lo, hi - 1) + {hi}
  }

  function Min(a: int, b: int): (m: int)
    ensures m <= a && m <= b && (m == a || m == b)
  {
    if a <= b then a else b
  }

  function Max(a: int, b: int): (m: int)
    ensures m >= a && m >= b && (m == a || m == b)
  {
    if a <= b then b else a
  }
}
