/**
 * The slice of Kubernetes object metadata and API errors that the reconciler uses:
 * namespaced keys, object metadata with labels and a controller owner reference,
 * and the three error outcomes a store call can have.
 */
module Meta {

  import opened Wrappers

  /** The (namespace, name) pair that addresses an object of one kind in the store. */
  datatype NamespacedName = NamespacedName(namespace: string, name: string)

  /** A back-reference from a child to the object that controls it. */
  datatype OwnerReference = OwnerReference(kind: string, name: string, uid: string)

  /**
   * Object metadata. Only the controller owner reference is kept: the children built
   * by the reconciler carry no other owner references.
   */
  datatype ObjectMeta = ObjectMeta(
    name: string,
    namespace: string,
    uid: string,
    labels: map<string, string>,
    controllerRef: Option<OwnerReference>)

  /** The key an object with this metadata is stored under. */
  function KeyOf(meta: ObjectMeta): NamespacedName
  {
    NamespacedName(meta.namespace, meta.name)
  }

  /** Go's `m[k]` on a `map[string]string`: the zero value "" when the key is absent. */
  function Lookup(m: map<string, string>, k: string): string
  {
    if k in m then m[k] else ""
  }

  /**
   * What a store call or the owner-link step can fail with. `NotFound` is what
   * `errors.IsNotFound` recognises; `Injected` stands for every other failure
   * (network, API server, scheme misconfiguration), carrying its reason.
   */
  datatype Error =
    | NotFound(key: NamespacedName)
    | AlreadyExists(key: NamespacedName)
    | Injected(reason: string)
}
