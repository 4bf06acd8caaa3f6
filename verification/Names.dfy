/** Database, role and secret names, and why two resources never share one. */
module Names {
  /** `{namespace}_{name}`. */
  function DefaultName(namespace: string, name: string): string { namespace + "_" + name }

  /** The explicit name of the spec when there is one, else the default. */
  function ChosenName(explicit: string, namespace: string, name: string): string {
    if explicit != "" then explicit else DefaultName(namespace, name)
  }

  function SecretName(name: string): string { name + "-connection" }

  predicate LowerAlphanumeric(c: char) { 'a' <= c <= 'z' || '0' <= c <= '9' }

  /** A DNS label: 1 to 63 characters matching `^[a-z0-9]([-a-z0-9]*[a-z0-9])?$`. Namespaces are DNS labels. */
  predicate DnsLabel(s: string) {
    && 1 <= |s| <= 63
    && LowerAlphanumeric(s[0]) && LowerAlphanumeric(s[|s| - 1])
    && forall i | 0 <= i < |s| :: LowerAlphanumeric(s[i]) || s[i] == '-'
  }

  /** What the CRD accepts as an explicit name. */
  predicate ExplicitName(s: string) { DnsLabel(s) }

  /** A DNS subdomain: parts like labels with dots between them, at most 253 characters. Names are subdomains. */
  predicate DnsSubdomain(s: string) {
    && 1 <= |s| <= 253
    && LowerAlphanumeric(s[0]) && LowerAlphanumeric(s[|s| - 1])
    && (forall i | 0 <= i < |s| :: LowerAlphanumeric(s[i]) || s[i] == '-' || s[i] == '.')
    && (forall i | 0 < i < |s| - 1 && s[i] == '.' :: LowerAlphanumeric(s[i - 1]) && LowerAlphanumeric(s[i + 1]))
  }

  /** PostgreSQL keeps the first 63 bytes of an identifier. */
  function Stored(s: string): string { if |s| <= 63 then s else s[..63] }

  lemma DefaultNameIsInjective(ns1: string, n1: string, ns2: string, n2: string)
    requires '_' !in ns1 && '_' !in ns2
    requires DefaultName(ns1, n1) == DefaultName(ns2, n2)
    ensures ns1 == ns2 && n1 == n2
  {
    var s := DefaultName(ns1, n1);
    assert s[|ns1|] == '_' && s[|ns2|] == '_';
    assert forall i | 0 <= i < |ns1| :: s[i] == ns1[i];
    assert forall i | 0 <= i < |ns2| :: s[i] == ns2[i];
    assert |ns1| == |ns2|;
    assert ns1 == s[..|ns1|] && n1 == s[|ns1| + 1..];
    assert ns2 == s[..|ns2|] && n2 == s[|ns2| + 1..];
  }

  /** Two defaulted names of at most 63 characters coincide on the server only for the same resource. */
  lemma DefaultNamesSeparate(ns1: string, n1: string, ns2: string, n2: string)
    requires DnsLabel(ns1) && DnsSubdomain(n1) && DnsLabel(ns2) && DnsSubdomain(n2)
    requires |DefaultName(ns1, n1)| <= 63 && |DefaultName(ns2, n2)| <= 63
    requires Stored(DefaultName(ns1, n1)) == Stored(DefaultName(ns2, n2))
    ensures ns1 == ns2 && n1 == n2
  {
    DefaultNameIsInjective(ns1, n1, ns2, n2);
  }

  /** Another name that differs in its last character only. */
  function Sibling(n: string): string
    requires n != ""
  {
    if |n| < 253 then n + "a" else n[..|n| - 1] + (if n[|n| - 1] == 'a' then "b" else "a")
  }

  lemma SiblingFacts(n: string)
    requires DnsSubdomain(n)
    ensures DnsSubdomain(Sibling(n)) && Sibling(n) != n
    ensures |Sibling(n)| >= |n| && (|n| < 253 ==> Sibling(n)[..|n|] == n)
    ensures |n| == 253 ==> |Sibling(n)| == 253 && Sibling(n)[..252] == n[..252]
  {
    var s := Sibling(n);
    var kept := if |n| < 253 then |n| else |n| - 1;
    assert forall i | 0 <= i < kept :: s[i] == n[i];
    assert s[|s| - 1] == 'a' || s[|s| - 1] == 'b';
  }

  /**
   * A defaulted name is out of reach of every other resource's default exactly when it has fewer than 63
   * characters: at 63 and above the server's truncation lets some other (namespace, name) collide with it.
   */
  lemma DefaultNameIsUniqueIff(ns: string, n: string)
    requires DnsLabel(ns) && DnsSubdomain(n)
    ensures (forall ns2: string, n2: string | DnsLabel(ns2) && DnsSubdomain(n2) &&
                                              Stored(DefaultName(ns2, n2)) == Stored(DefaultName(ns, n)) ::
               ns2 == ns && n2 == n)
            <==> |DefaultName(ns, n)| < 63
  {
    if |DefaultName(ns, n)| < 63 {
      forall ns2: string, n2: string | DnsLabel(ns2) && DnsSubdomain(n2) &&
                                       Stored(DefaultName(ns2, n2)) == Stored(DefaultName(ns, n))
        ensures ns2 == ns && n2 == n
      {
        DefaultNameIsInjective(ns2, n2, ns, n);
      }
    } else {
      var n2 := Sibling(n);
      SiblingFacts(n);
      assert Stored(DefaultName(ns, n2)) == DefaultName(ns, n2)[..63] == DefaultName(ns, n)[..63];
    }
  }

  /** A defaulted name that fits never equals an explicit name of another resource. */
  lemma DefaultIsNeverExplicit(ns: string, n: string, explicit: string)
    requires |DefaultName(ns, n)| <= 63 && ExplicitName(explicit)
    ensures Stored(DefaultName(ns, n)) != Stored(explicit)
  {
    assert DefaultName(ns, n)[|ns|] == '_';
  }

  /** Secret names are injective within a namespace. */
  lemma SecretNamesSeparate(n1: string, n2: string)
    requires SecretName(n1) == SecretName(n2)
    ensures n1 == n2
  {
    assert n1 == SecretName(n1)[..|SecretName(n1)| - 11];
    assert n2 == SecretName(n2)[..|SecretName(n2)| - 11];
  }
}
