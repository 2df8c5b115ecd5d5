/**
  Names the control plane derives from primary keys: a tenant's namespace
  (control_plane/app/services/tenants.py), a build's kpack Image and its
  registry tag (control_plane/app/services/build_jobs.py).
 */
module Naming {
  import opened Text

  const PLACEHOLDER := "pending"

  /** Largest value of a Postgres Integer primary key. */
  const MAX_ID := 2147483647

  function NamespaceName(tenant: nat): string {
    "tenant-" + Decimal(tenant)
  }

  function ImageName(build: nat): string {
    "build-" + Decimal(build)
  }

  function ImageTag(tenant: nat, build: nat): string {
    "tenant-" + (Decimal(tenant) + "-" + ImageName(build))
  }

  lemma NamespaceInjective(t: nat, u: nat)
    ensures NamespaceName(t) == NamespaceName(u) <==> t == u
  {
    if NamespaceName(t) == NamespaceName(u) {
      SamePrefix("tenant-", Decimal(t), Decimal(u));
      DecimalInjective(t, u);
    }
  }

  lemma ImageNameInjective(b: nat, c: nat)
    ensures ImageName(b) == ImageName(c) <==> b == c
    ensures ImageName(b) == "build-" + Decimal(b)
  {
    if ImageName(b) == ImageName(c) {
      SamePrefix("build-", Decimal(b), Decimal(c));
      DecimalInjective(b, c);
    }
  }

  /** Every build of every tenant pushes to one repository; the tag alone tells them apart. */
  lemma ImageTagInjective(t: nat, b: nat, u: nat, c: nat)
    ensures ImageTag(t, b) == ImageTag(u, c) <==> t == u && b == c
  {
    if ImageTag(t, b) == ImageTag(u, c) {
      SamePrefix("tenant-", Decimal(t) + "-" + ImageName(b), Decimal(u) + "-" + ImageName(c));
      FirstDelimiter(Decimal(t), ImageName(b), Decimal(u), ImageName(c), '-');
      DecimalInjective(t, u);
      ImageNameInjective(b, c);
    }
  }

  lemma ImageTagText(t: nat, b: nat)
    ensures ImageTag(t, b) == "tenant-" + Decimal(t) + "-build-" + Decimal(b)
  {
    var front, back := "tenant-" + Decimal(t), "build-" + Decimal(b);
    assert ImageTag(t, b) == front + ("-" + back);
    assert front + "-build-" + Decimal(b) == front + ("-build-" + Decimal(b));
    assert "-build-" + Decimal(b) == "-" + back;
  }

  /** A namespace name is never the placeholder and fits the 63 characters Kubernetes allows. */
  lemma NamespaceIsLegal(t: nat)
    ensures NamespaceName(t) != PLACEHOLDER
    ensures t <= MAX_ID ==> |NamespaceName(t)| <= 17 < 63
  {
    assert NamespaceName(t)[0] == 't';
    if t <= MAX_ID {
      assert Pow10(10) == 10000000000 by {
        assert Pow10(5) == 100000;
        assert Pow10(10) == 100000 * Pow10(5);
      }
      DecimalLength(t, 10);
    }
  }
}
