/**
 * The Kubernetes and Cluster API types that the provider's objects embed.
 * They belong to foreign packages; here they are plain values holding the
 * fields the provider reads, and are copied by value.
 */
module Meta {

  /** The key of an object in the API server: its namespace and name. */
  datatype NamespacedName = NamespacedName(namespace: string, name: string)

  datatype TypeMeta = TypeMeta(kind: string, apiVersion: string)

  /** A link from a child object to its owner, by identity. */
  datatype OwnerReference = OwnerReference(apiVersion: string, kind: string, name: string)

  datatype ObjectMeta = ObjectMeta(
    name: string,
    namespace: string,
    annotations: map<string, string>,
    ownerReferences: seq<OwnerReference>)

  datatype ListMeta = ListMeta(resourceVersion: string)

  /** The Cluster API Cluster that owns a ChumichCluster. */
  datatype Cluster = Cluster(objectMeta: ObjectMeta)
}
