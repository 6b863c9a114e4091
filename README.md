# Backup operation adapter (infinispan-operator), modelled in Dafny

This project models the backup adapter of the operator's one-shot operation
engine: the code that, for one `Backup` resource, records the phase the
engine reaches, provisions the persistent volume claim the backup worker
writes to, and builds the worker specification, the pod labels and the
configuration sent to the in-pod agent.

The cluster is an in-memory object store (`Client.Store`): a map of
Backups (with their status subresource), a map of volume claims, and
counters of the status updates and claim creations requested of it. A
request the API server would fail is given to each store operation as a
`fault` argument (`Some(e)`: the server answers with `e`), so every error
branch of the controller can be reached. The Go `backupResource` becomes
the class `BackupController.BackupResource`: its `instance` field is
updated in place, as the Go pointer is, and its methods change the store.
`UpdatePhase` and `GetOrCreatePvc` are each proved equal to a pure step
function (`UpdatePhaseStep`, `EnsureClaimStep`), and the promises of the controller (no write when the
status is current, at most one claim, no claim on a bad size) are proved
about those functions, including over any number of retries.

Library code whose implementation is not visible (the quantity parser,
the cluster's service labels, the default claim size) is the `Platform`
value the adapter is constructed with; the model holds for every choice of
them.

Modules: `Wrappers` (Option, Result), `KubeApi` (keys, client errors,
quantities, claims), `BackupApi` (the Backup resource, the worker spec, the
agent configuration), `Client` (the store), `BackupController` (the
adapter).

## Model

| member | source | states |
|---|---|---|
| `BackupController.UpdatePhaseStep` | pkg/controller/backup/backup_controller.go:78-101 | A failed reload is returned wrapped as "Failed to reload Backup status" with no write requested; after a reload the in-memory Backup is the stored one with the target phase and reason; when the stored phase and reason already match, it succeeds with no write; otherwise exactly one status write is requested and its failure is returned wrapped as "Failed to update Backup status"; on success the stored status carries the target phase and the reason (empty without an error, the error's text with one); only that Backup's phase and reason can change |
| `BackupController.UpdatePhaseAgainWritesNothing` | pkg/controller/backup/backup_controller.go:84-93 | After a call that succeeded, the same call again succeeds and requests no write |
| `BackupController.RetriedUpdatePhaseWritesAtMostOnce` | pkg/controller/backup/backup_controller.go:78-101 | With no request failing, any number of calls with the same phase and error request exactly one status write in all when the status is not yet current and none when it is, and leave the target phase and reason stored |
| `BackupController.CurrentStatusIsNeverRewritten` | pkg/controller/backup/backup_controller.go:80-93 | Once the target phase and reason are stored, any sequence of retries, whatever the cluster answers them with, requests no status write and leaves the store unchanged |
| `BackupController.AfterSuccessNoFurtherWrites` | pkg/controller/backup/backup_controller.go:78-101 | After the first call that succeeds, no retry requests a status write, whatever the cluster answers any call with |
| `BackupController.EnsureClaimStep` | pkg/controller/backup/backup_controller.go:126-178 | An existing claim named after the Backup is kept and nothing is requested; a lookup error other than not-found is returned unchanged; a size that does not parse is returned and no claim is created; otherwise exactly one create is requested and every failure of it is returned wrapped as "Unable to create pvc": the fault when there is one, else already-exists when the name is already taken (a lookup that wrongly reported not-found), else the create succeeds; success means the claim exists; no claim is overwritten and the only new claim is the Backup's own, with its name and namespace, the single access mode ReadWriteOnce, its storage class unchanged and the default or the parsed size |
| `BackupController.EnsureClaimTwiceKeepsOneClaim` | pkg/controller/backup/backup_controller.go:127-136 | After a call that succeeded, a second call succeeds and leaves the store unchanged |
| `BackupController.RetriesAddOnlyTheBackupsClaim` | pkg/controller/backup/backup_controller.go:126-178 | Over any sequence of calls, whatever the cluster answers, no existing claim changes and the only claim that can appear is the Backup's own, provisioned as described above |
| `BackupController.RetriesWithoutFaultsCreateOnce` | pkg/controller/backup/backup_controller.go:133-153 | With no request failing, any number of calls create exactly one claim (the Backup's, with the requested size) when it is missing and the size is valid, change nothing when it exists, and fail with the parse error and create nothing when the size does not parse |
| `BackupController.PodLabels` | pkg/controller/backup/backup_controller.go:204-208 | The labels are the cluster's service labels plus `backup_cr` mapped to the Backup's name, which replaces any service label of that name |
| `BackupController.ExecConfig` | pkg/controller/backup/backup_controller.go:183-192 | The agent writes into the data mount path, and gets the Backup's resource filter, or an empty one when none is set |
| `BackupController.BackupResource.UpdatePhase` | pkg/controller/backup/backup_controller.go:78-101 | Its effect on the in-memory Backup and the store, and its error, are those of `UpdatePhaseStep`; on success the in-memory phase is the target |
| `BackupController.BackupResource.GetOrCreatePvc` | pkg/controller/backup/backup_controller.go:126-178 | Its effect on the store and its error are those of `EnsureClaimStep` |
| `BackupController.BackupResource.Init` | pkg/controller/backup/backup_controller.go:103-124 | A provisioning error is returned as it is, with no spec and the Backup untouched; on success the status PVC reference is `pvc/<name>`, the claim exists, and the spec mounts the claim named after the Backup at the data mount path (where the agent writes), keeps the container settings and carries the pod labels |
| `BackupController.BackupResource.Cluster` | pkg/controller/backup/backup_controller.go:70-72 | The target cluster is the one the Backup's spec names |
| `BackupController.BackupResource.Phase` | pkg/controller/backup/backup_controller.go:74-76 | The phase is the in-memory Backup's status phase |
| `Client.Store.Get` | pkg/controller/backup/backup_controller.go:80 | The reload returns the fault, the stored Backup, or not-found |
| `Client.Store.GetPvc` | pkg/controller/backup/backup_controller.go:128-131 | The claim lookup returns the fault, the stored claim, or not-found |
| `Client.Store.Create` | pkg/controller/backup/backup_controller.go:174 | A create is counted, refused with the fault or with already-exists when the name is taken, and otherwise adds the claim |
| `Client.Store.Update` | pkg/controller/backup/backup_controller.go:97 | A status update is counted, refused with the fault or not-found, and otherwise replaces only the stored Backup's status |

## Left out

- Client I/O: `client.Get`, `client.Create` and `client.Status().Update` are operations on the in-memory store; failures of the API server or the network are the `fault` arguments. Resource-version conflicts are one such fault.
- The reload in `UpdatePhase` replaces the in-memory Backup with the stored copy when it succeeds and leaves it untouched when it fails. Whether the status PVC reference set by `Init` survives that reload depends on the cache's `Get`, which is not part of this model; the model only states that the stored PVC reference is never changed by `UpdatePhase`.
- `Add`, `ResourceInstance`, `Type`, `AsMeta` and the generic zero-capacity engine with its phase state machine (`pkg/controller/zerocapacity`) are not part of this model; no phase transitions are assumed.
- `ApplyDefaults` (applied when the engine loads a Backup) is not part of this model.
- `Exec` and `ExecStatus`: the calls to the backup manager over HTTP are left out; only the configuration `Exec` builds is modelled (`ExecConfig`).
- `resource.ParseQuantity`, `ispnctrl.ServiceLabels` and `constants.DefaultPVSize` are not part of this model; they are the fields of `Platform`, and every proof holds for any of them. A `Quantity` is only compared, never interpreted.
- `SetControllerReference` and garbage collection through the owner reference are left out; the source ignores its result.
- Go maps are shared by reference; `PodLabels` works on a map value, so a service-labels map shared with other callers is not modelled.
- `errors.IsNotFound` is modelled on the unwrapped errors the lookup returns.
- `getOrCreatePvc` returns every create error wrapped, already-exists included; the model does not treat already-exists as success.
