/**
  Document identifiers (internal/desires/desireid.go, and the id builders of
  internal/apiserver/handlers.go and internal/placement/placement.go).

  A version-5 UUID (section 5.5 of RFC 9562) is a hash of a joined key. The hash is
  modelled by a datatype constructor, so two ids are equal exactly when the joined
  keys are; what is left to prove is when the *joins* are injective.
 */
module DesireId {
  /** `Unset` is the empty string id of a desire that was never given one. */
  datatype DocumentID = Unset | Uuid(key: string)

  const TASK_KEY := "hyperkube-apiserver"
  const MHC_GROUP := "hcp.gcp.hypershift.openshift.com"
  const MHC_VERSION := "v1alpha1"
  const MHC_RESOURCE := "managedhostedclusters"

  function NewDocumentID(taskKey: string, group: string, version: string, resource: string,
                         namespace: string, name: string): DocumentID
  {
    Uuid(taskKey + "/" + group + "/" + version + "/" + resource + "/" + namespace + "/" + name)
  }

  function ClusterDocumentID(namespace: string, name: string): DocumentID {
    NewDocumentID(TASK_KEY, MHC_GROUP, MHC_VERSION, MHC_RESOURCE, namespace, name)
  }

  function NamespaceDocumentID(namespace: string): DocumentID {
    NewDocumentID(TASK_KEY, "", "v1", "namespaces", "", namespace)
  }

  function ClusterMapDocID(namespace: string, name: string): string {
    namespace + ":" + name
  }

  /** A namespace the API can key documents by: neither separator occurs in it. */
  predicate ValidNamespace(namespace: string) {
    '/' !in namespace && ':' !in namespace
  }

  /** Two joins with a one-character separator agree only if both halves do, provided the
      first halves are free of the separator. Nothing is asked of the second halves. */
  lemma JoinInjective(a: string, b: string, c: string, d: string, sep: char)
    requires sep !in a && sep !in c
    requires a + [sep] + b == c + [sep] + d
    ensures a == c && b == d
  {
    var s := a + [sep] + b;
    assert s[|a|] == sep && s[|c|] == sep;
    assert |a| == |c|;
    assert a == s[..|a|] == c;
    assert b == s[|a| + 1..] == d;
  }

  const CLUSTER_PREFIX := TASK_KEY + "/" + MHC_GROUP + "/" + MHC_VERSION + "/" + MHC_RESOURCE + "/"

  /** Cluster ids identify (namespace, name) as soon as the namespaces hold no '/'. */
  lemma ClusterIdInjective(ns1: string, name1: string, ns2: string, name2: string)
    requires '/' !in ns1 && '/' !in ns2
    ensures ClusterDocumentID(ns1, name1) == ClusterDocumentID(ns2, name2) <==> ns1 == ns2 && name1 == name2
  {
    if ClusterDocumentID(ns1, name1) == ClusterDocumentID(ns2, name2) {
      var k1, k2 := ns1 + ['/'] + name1, ns2 + ['/'] + name2;
      assert ClusterDocumentID(ns1, name1).key == CLUSTER_PREFIX + k1;
      assert ClusterDocumentID(ns2, name2).key == CLUSTER_PREFIX + k2;
      assert k1 == (CLUSTER_PREFIX + k1)[|CLUSTER_PREFIX|..] == (CLUSTER_PREFIX + k2)[|CLUSTER_PREFIX|..] == k2;
      JoinInjective(ns1, name1, ns2, name2, '/');
    }
  }

  /** Without that restriction it fails: a slash can move across the boundary. */
  lemma ClusterIdCollision()
    ensures ClusterDocumentID("a/b", "c") == ClusterDocumentID("a", "b/c")
  {
    assert ClusterDocumentID("a/b", "c").key == CLUSTER_PREFIX + "a/b/c";
    assert ClusterDocumentID("a", "b/c").key == CLUSTER_PREFIX + "a/b/c";
  }

  /** The clustermap key has the same property for ':'. */
  lemma ClusterMapIdInjective(ns1: string, name1: string, ns2: string, name2: string)
    requires ':' !in ns1 && ':' !in ns2
    ensures ClusterMapDocID(ns1, name1) == ClusterMapDocID(ns2, name2) <==> ns1 == ns2 && name1 == name2
  {
    if ClusterMapDocID(ns1, name1) == ClusterMapDocID(ns2, name2) {
      assert ClusterMapDocID(ns1, name1) == ns1 + [':'] + name1;
      assert ClusterMapDocID(ns2, name2) == ns2 + [':'] + name2;
      JoinInjective(ns1, name1, ns2, name2, ':');
    }
  }

  lemma NamespaceIdInjective(ns1: string, ns2: string)
    ensures NamespaceDocumentID(ns1) == NamespaceDocumentID(ns2) <==> ns1 == ns2
  {
    var p := TASK_KEY + "/" + "" + "/" + "v1" + "/" + "namespaces" + "/" + "" + "/";
    if NamespaceDocumentID(ns1) == NamespaceDocumentID(ns2) {
      assert ns1 == (p + ns1)[|p|..] == (p + ns2)[|p|..] == ns2;
    }
  }

  /** A namespace's document never shares an id with a cluster's, whatever the strings. */
  lemma NamespaceAndClusterIdsDiffer(ns: string, namespace: string, name: string)
    ensures NamespaceDocumentID(ns) != ClusterDocumentID(namespace, name)
  {
    var i := |TASK_KEY| + 1;
    assert NamespaceDocumentID(ns).key[i] == '/';
    assert ClusterDocumentID(namespace, name).key[i] == 'h';
  }
}
