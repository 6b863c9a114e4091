/**
 * The platform values the backup controller handles: object keys, the
 * errors its client returns, storage quantities and volume claims.
 */
module KubeApi {
  import opened Wrappers

  /** The namespace and name that identify an object in the cluster. */
  datatype Key = Key(namespace: string, name: string)

  /**
   * Errors as the client hands them back. `Wrapped(context, cause)` is what
   * `fmt.Errorf("<context>: %w", cause)` builds.
   */
  datatype Error =
    | NotFound(resource: string, name: string)
    | AlreadyExists(resource: string, name: string)
    | Failure(text: string)
    | Wrapped(context: string, cause: Error)

  /** The text `Error()` returns. */
  function Message(e: Error): string
  {
    match e
    case NotFound(resource, name) => resource + " \"" + name + "\" not found"
    case AlreadyExists(resource, name) => resource + " \"" + name + "\" already exists"
    case Failure(text) => text
    case Wrapped(context, cause) => context + ": " + Message(cause)
  }

  /** The not-found test the controller applies to the unwrapped errors of a lookup. */
  predicate IsNotFound(e: Error)
  {
    e.NotFound?
  }

  /**
   * A storage size. Its decimal representation and format are not part of
   * this model; sizes are only produced by the parser and compared.
   */
  datatype Quantity = Quantity(milliValue: int)

  datatype AccessMode = ReadWriteOnce | ReadOnlyMany | ReadWriteMany

  /** The resource name under which a claim requests storage. */
  const ResourceStorage := "storage"

  /** A persistent volume claim: its key and the parts of its spec the controller sets. */
  datatype Claim = Claim(
    key: Key,
    accessModes: seq<AccessMode>,
    requests: map<string, Quantity>,
    storageClassName: Option<string>)
}
