/** The ingress table: namespace -> app -> the base URL of the app's external ingress. */
module Ingresses {
  import opened Wrappers

  type Ingress = string

  type IngressSet = map<string, map<string, Ingress>>

  /** `ingressSet[namespace]?.get(app)`: one nested lookup, no search elsewhere. */
  function IngressOf(set0: IngressSet, app: string, namespace: string): (r: Option<Ingress>)
    ensures namespace in set0 && app in set0[namespace] ==> r == Some(set0[namespace][app])
    ensures namespace !in set0 ==> r == None
    ensures namespace in set0 && app !in set0[namespace] ==> r == None
  {
    if namespace in set0 && app in set0[namespace] then Some(set0[namespace][app]) else None
  }

  /**
   * Entries under other namespaces never matter: two tables that agree on `namespace`
   * give the same answer, so an app missing from its namespace does not fall back elsewhere.
   */
  lemma IngressOfOnlyReadsItsNamespace(a: IngressSet, b: IngressSet, app: string, namespace: string)
    requires (namespace in a) == (namespace in b)
    requires namespace in a ==> a[namespace] == b[namespace]
    ensures IngressOf(a, app, namespace) == IngressOf(b, app, namespace)
  {
  }

  /** Adding the app under some other namespace leaves a miss a miss. */
  lemma {:induction false} NoFallbackSearch(set0: IngressSet, app: string, namespace: string, other: string, url: Ingress)
    requires other != namespace
    requires IngressOf(set0, app, namespace) == None
    ensures
      var inner := if other in set0 then set0[other] else map[];
      IngressOf(set0[other := inner[app := url]], app, namespace) == None
  {
    var inner := if other in set0 then set0[other] else map[];
    var bigger := set0[other := inner[app := url]];
    assert (namespace in bigger) == (namespace in set0);
    assert namespace in set0 ==> bigger[namespace] == set0[namespace];
  }
}
