/** The annotation and label keys of one domain (internal/controller/replikate.go). */
module Keys {

  const ManagedByValue := "replikate"
  const LastAppliedAnnotation := "kubectl.kubernetes.io/last-applied-configuration"
  const KubedOriginPrefix := "kubed.appscode.com/origin"

  datatype Keys = Keys(
    domain: string,
    syncAnnotation: string,
    targetClustersAnnotation: string,
    finalizer: string,
    managedByLabel: string,
    originNSLabel: string,
    originNameLabel: string,
    originClusterLabel: string,
    credentialLabel: string
  )

  /** A key name under a domain prefix. */
  function Under(domain: string, name: string): string {
    domain + "/" + name
  }

  function NewKeys(domain: string): Keys {
    Keys(
      domain,
      Under(domain, "sync"),
      Under(domain, "target-clusters"),
      Under(domain, "finalizer"),
      Under(domain, "managed-by"),
      Under(domain, "origin-namespace"),
      Under(domain, "origin-name"),
      Under(domain, "origin-cluster"),
      Under(domain, "cluster-credential")
    )
  }

  datatype Kind = Sync | TargetClusters | Finalizer | ManagedBy | OriginNS | OriginName | OriginCluster | Credential

  function Suffix(kind: Kind): string {
    match kind
    case Sync => "sync"
    case TargetClusters => "target-clusters"
    case Finalizer => "finalizer"
    case ManagedBy => "managed-by"
    case OriginNS => "origin-namespace"
    case OriginName => "origin-name"
    case OriginCluster => "origin-cluster"
    case Credential => "cluster-credential"
  }

  function KeyOf(k: Keys, kind: Kind): string {
    match kind
    case Sync => k.syncAnnotation
    case TargetClusters => k.targetClustersAnnotation
    case Finalizer => k.finalizer
    case ManagedBy => k.managedByLabel
    case OriginNS => k.originNSLabel
    case OriginName => k.originNameLabel
    case OriginCluster => k.originClusterLabel
    case Credential => k.credentialLabel
  }

  /** The slash after a longer domain would have to lie inside the other name. */
  lemma LastSlash(d1: string, s1: string, d2: string, s2: string)
    requires '/' !in s1
    requires Under(d1, s1) == Under(d2, s2)
    ensures |d2| <= |d1|
  {
    assert Under(d2, s2)[|d2|] == '/';
    assert forall i :: |d1| < i < |Under(d1, s1)| ==> Under(d1, s1)[i] == s1[i - |d1| - 1];
  }

  /** A slash-free name under a domain determines both: split at the last slash. */
  lemma UnderInjective(d1: string, s1: string, d2: string, s2: string)
    requires '/' !in s1 && '/' !in s2
    requires Under(d1, s1) == Under(d2, s2)
    ensures d1 == d2 && s1 == s2
  {
    LastSlash(d1, s1, d2, s2);
    LastSlash(d2, s2, d1, s1);
    assert d1 == Under(d1, s1)[..|d1|] && d2 == Under(d2, s2)[..|d2|];
    assert s1 == Under(d1, s1)[|d1| + 1..] && s2 == Under(d2, s2)[|d2| + 1..];
  }

  lemma SuffixInjective(i: Kind, j: Kind)
    ensures '/' !in Suffix(i)
    ensures Suffix(i) == Suffix(j) ==> i == j
  {
    assert Suffix(i) == Suffix(j) ==> |Suffix(i)| == |Suffix(j)|;
  }

  /** NewKeys is injective over (domain, key kind): no two keys of any two
      domains ever collide unless they are the same key of the same domain. */
  lemma NewKeysInjective(d1: string, i: Kind, d2: string, j: Kind)
    ensures KeyOf(NewKeys(d1), i) == KeyOf(NewKeys(d2), j) <==> d1 == d2 && i == j
  {
    assert KeyOf(NewKeys(d1), i) == Under(d1, Suffix(i));
    assert KeyOf(NewKeys(d2), j) == Under(d2, Suffix(j));
    SuffixInjective(i, j);
    SuffixInjective(j, i);
    if KeyOf(NewKeys(d1), i) == KeyOf(NewKeys(d2), j) {
      UnderInjective(d1, Suffix(i), d2, Suffix(j));
    }
  }

  lemma Spelled(d: string, name: string)
    ensures Under(d, name) == d + ("/" + name)
  {
  }

  lemma AnnotationsAreSpelled(d: string)
    ensures NewKeys(d).syncAnnotation == d + "/sync"
    ensures NewKeys(d).targetClustersAnnotation == d + "/target-clusters"
    ensures NewKeys(d).finalizer == d + "/finalizer"
    ensures NewKeys(d).managedByLabel == d + "/managed-by"
  {
    Spelled(d, "sync");
    Spelled(d, "target-clusters");
    Spelled(d, "finalizer");
    Spelled(d, "managed-by");
  }

  lemma LabelsAreSpelled(d: string)
    ensures NewKeys(d).originNSLabel == d + "/origin-namespace"
    ensures NewKeys(d).originNameLabel == d + "/origin-name"
    ensures NewKeys(d).originClusterLabel == d + "/origin-cluster"
    ensures NewKeys(d).credentialLabel == d + "/cluster-credential"
  {
    Spelled(d, "origin-namespace");
    Spelled(d, "origin-name");
    Spelled(d, "origin-cluster");
    Spelled(d, "cluster-credential");
  }

  /** Under any domain the keys are spelled as the documentation has them. */
  lemma KeysAreSpelled(d: string)
    ensures NewKeys(d).domain == d
    ensures NewKeys(d).syncAnnotation == d + "/sync"
    ensures NewKeys(d).targetClustersAnnotation == d + "/target-clusters"
    ensures NewKeys(d).finalizer == d + "/finalizer"
    ensures NewKeys(d).managedByLabel == d + "/managed-by"
    ensures NewKeys(d).originNSLabel == d + "/origin-namespace"
    ensures NewKeys(d).originNameLabel == d + "/origin-name"
    ensures NewKeys(d).originClusterLabel == d + "/origin-cluster"
    ensures NewKeys(d).credentialLabel == d + "/cluster-credential"
  {
    AnnotationsAreSpelled(d);
    LabelsAreSpelled(d);
    hide Under;
  }
}
