/**
  The replica bound of the deployment schema against the tenant quota
  (control_plane/app/schemas/deployments.py, tests/test_isolation_manifests.py).
 */
module Quota {
  import opened Kubernetes
  import opened ControlPlane

  datatype Budget = Budget(requests: Resources, limits: Resources, pods: nat)

  predicate Within(n: nat, each: Resources, total: Resources) {
    n * each.cpuMilli <= total.cpuMilli && n * each.memoryMi <= total.memoryMi
  }

  /** n pods of the given sizes stay inside the quota in every dimension. */
  predicate Fits(n: nat, requests: Resources, limits: Resources, hard: Budget) {
    Within(n, requests, hard.requests) && Within(n, limits, hard.limits) && n <= hard.pods
  }

  function Min(a: nat, b: nat): nat {
    if a < b then a else b
  }

  predicate Positive(r: Resources) {
    r.cpuMilli > 0 && r.memoryMi > 0
  }

  /** The minimum of the floor quotients, as the schema's bound is computed. */
  function LargestThatFits(requests: Resources, limits: Resources, hard: Budget): nat
    requires Positive(requests) && Positive(limits)
  {
    Min(Min(Min(hard.limits.cpuMilli / limits.cpuMilli, hard.limits.memoryMi / limits.memoryMi),
            Min(hard.requests.cpuMilli / requests.cpuMilli, hard.requests.memoryMi / requests.memoryMi)),
        hard.pods)
  }

  lemma QuotientBound(n: nat, each: nat, total: nat)
    requires each > 0
    ensures n * each <= total <==> n <= total / each
  {
    var q := total / each;
    assert total == q * each + total % each;
    if n <= q {
      assert n * each <= q * each by { assert (q - n) * each >= 0; }
    } else {
      assert n * each >= (q + 1) * each by { assert (n - q - 1) * each >= 0; }
    }
  }

  /** For every quota and every pod size it is exactly the largest count that fits. */
  lemma LargestIsExact(n: nat, requests: Resources, limits: Resources, hard: Budget)
    requires Positive(requests) && Positive(limits)
    ensures Fits(n, requests, limits, hard) <==> n <= LargestThatFits(requests, limits, hard)
  {
    QuotientBound(n, limits.cpuMilli, hard.limits.cpuMilli);
    QuotientBound(n, limits.memoryMi, hard.limits.memoryMi);
    QuotientBound(n, requests.cpuMilli, hard.requests.cpuMilli);
    QuotientBound(n, requests.memoryMi, hard.requests.memoryMi);
  }

  const TENANT_BUDGET := Budget(QUOTA_REQUESTS, QUOTA_LIMITS, QUOTA_PODS)

  /** The schema accepts a replica count exactly when the tenant quota can hold it. */
  lemma SchemaBoundIsExact(n: nat)
    ensures Fits(n, CONTAINER_REQUESTS, CONTAINER_LIMITS, TENANT_BUDGET) <==> n <= MAX_REPLICAS
  {
    LargestIsExact(n, CONTAINER_REQUESTS, CONTAINER_LIMITS, TENANT_BUDGET);
  }
}
