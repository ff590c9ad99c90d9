/** The process-wide counters of src/utils/metrics.ts. */
module MetricsRegistry {
  import opened Types

  /** All five counters at zero: the initial and the reset value. */
  const Zero: ServiceMetrics := ServiceMetrics(0, 0, 0, 0, 0)

  /** The counter named `kind` (`metrics[type]`). */
  function Count(m: ServiceMetrics, kind: MetricKind): nat
  {
    match kind
    case TotalRequests => m.totalRequests
    case CacheHits => m.cacheHits
    case CacheMisses => m.cacheMisses
    case AiErrors => m.aiErrors
    case FallbacksUsed => m.fallbacksUsed
  }

  /** `metrics[type]++`: one counter goes up by exactly one, the other four stay. */
  function Bump(m: ServiceMetrics, kind: MetricKind): (r: ServiceMetrics)
    ensures Count(r, kind) == Count(m, kind) + 1
    ensures forall other :: other != kind ==> Count(r, other) == Count(m, other)
  {
    match kind
    case TotalRequests => m.(totalRequests := m.totalRequests + 1)
    case CacheHits => m.(cacheHits := m.cacheHits + 1)
    case CacheMisses => m.(cacheMisses := m.cacheMisses + 1)
    case AiErrors => m.(aiErrors := m.aiErrors + 1)
    case FallbacksUsed => m.(fallbacksUsed := m.fallbacksUsed + 1)
  }

  /** No counter of `a` is above the same counter of `b`. */
  predicate NoneDecreased(a: ServiceMetrics, b: ServiceMetrics)
  {
    forall kind :: Count(a, kind) <= Count(b, kind)
  }

  lemma ZeroIsAllZero()
    ensures forall kind :: Count(Zero, kind) == 0
  {
  }

  /** Counters only grow under increments. */
  lemma BumpNeverDecreases(m: ServiceMetrics, kind: MetricKind)
    ensures NoneDecreased(m, Bump(m, kind))
    ensures m != Bump(m, kind)
  {
  }

  /** Increments commute, so concurrent handlers may interleave them in any order. */
  lemma BumpsCommute(m: ServiceMetrics, a: MetricKind, b: MetricKind)
    ensures Bump(Bump(m, a), b) == Bump(Bump(m, b), a)
  {
  }

  /** The registry object; `counters` is the private `metrics` field of the source. */
  class Metrics {
    var counters: ServiceMetrics

    /** A fresh registry has every counter at zero. */
    constructor ()
      ensures counters == Zero
    {
      counters := Zero;
    }

    /** `increment(type)`. */
    method Increment(kind: MetricKind)
      modifies this
      ensures counters == Bump(old(counters), kind)
      ensures Count(counters, kind) == Count(old(counters), kind) + 1
      ensures forall other :: other != kind ==> Count(counters, other) == Count(old(counters), other)
    {
      counters := Bump(counters, kind);
    }

    /** `getMetrics()`: a copy of the current counters; nothing changes. */
    method GetMetrics() returns (snapshot: ServiceMetrics)
      ensures snapshot == counters
      ensures forall kind :: Count(snapshot, kind) == Count(counters, kind)
    {
      snapshot := counters;
    }

    /** `reset()`: every counter back to zero. */
    method Reset()
      modifies this
      ensures counters == Zero
    {
      counters := Zero;
    }
  }
}
