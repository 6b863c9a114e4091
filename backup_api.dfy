/**
 * The Backup resource and the descriptors the backup controller builds from
 * it: the worker specification handed to the one-shot operation engine and
 * the configuration sent to the in-pod agent.
 */
module BackupApi {
  import opened Wrappers
  import opened KubeApi

  /** Container settings of the worker; carried through unchanged, never interpreted. */
  datatype ContainerSpec = ContainerSpec(settings: map<string, string>)

  /** Which resources to back up: for each kind of resource, the names to include. */
  datatype ResourceFilter = ResourceFilter(names: map<string, seq<string>>)

  /** The resource filter with nothing selected (Go's zero value). */
  const NoResources := ResourceFilter(map[])

  /** Optional size (a quantity string such as "10Gi") and storage class of the claim. */
  datatype BackupVolumeSpec = BackupVolumeSpec(storage: Option<string>, storageClassName: Option<string>)

  datatype BackupSpec = BackupSpec(
    cluster: string,
    volume: BackupVolumeSpec,
    resources: Option<ResourceFilter>,
    container: ContainerSpec)

  /** The persisted status: phase, the reason of a failure, and the claim reference. */
  datatype BackupStatus = BackupStatus(phase: string, reason: string, pvc: string)

  datatype Backup = Backup(key: Key, spec: BackupSpec, status: BackupStatus)

  /** The worker's volume: mounted at `mountPath`, backed by the claim `claimName`. */
  datatype VolumeSpec = VolumeSpec(updatePermissions: bool, mountPath: string, claimName: string)

  /** What `Init` hands to the operation engine to start the worker pod. */
  datatype WorkerSpec = WorkerSpec(volume: VolumeSpec, container: ContainerSpec, podLabels: map<string, string>)

  /** What `Exec` asks the in-pod agent to do. */
  datatype BackupConfig = BackupConfig(directory: string, resources: ResourceFilter)
}
