/**
 * The backup operation adapter: how a Backup resource records its phase,
 * provisions the volume claim its worker writes to, and describes the
 * worker and the agent call to the one-shot operation engine.
 */
module BackupController {
  import opened Wrappers
  import opened KubeApi
  import opened BackupApi
  import opened Client

  /** Where the claim is mounted in the worker, and where the agent writes the backup. */
  const DataMountPath := "/opt/infinispan/backups"
  /** The pod label that names the Backup a worker belongs to. */
  const BackupLabel := "backup_cr"
  const PvcRefPrefix := "pvc/"

  const ReloadFailed := "Failed to reload Backup status"
  const UpdateFailed := "Failed to update Backup status"
  const CreateFailed := "Unable to create pvc"

  /**
   * Library code the controller calls and whose implementation is not part
   * of this model: the quantity parser, the cluster's service labels and the
   * default claim size.
   */
  datatype Platform = Platform(
    parseQuantity: string -> Result<Quantity, Error>,
    serviceLabels: string -> map<string, string>,
    defaultPVSize: Quantity)

  // ---------------------------------------------------------------------
  // UpdatePhase
  // ---------------------------------------------------------------------

  /** The reason recorded with a phase: empty without an error, else the error's text. */
  function Reason(phaseErr: Option<Error>): string
  {
    if phaseErr.Some? then Message(phaseErr.value) else ""
  }

  predicate IsCurrent(status: BackupStatus, phase: string, reason: string)
  {
    status.phase == phase && status.reason == reason
  }

  function WithPhase(b: Backup, phase: string, reason: string): Backup
  {
    b.(status := b.status.(phase := phase, reason := reason))
  }

  /** The in-memory Backup, the store and the returned error after an UpdatePhase call. */
  datatype PhaseOutcome = PhaseOutcome(instance: Backup, store: StoreState, err: Option<Error>)

  /**
   * UpdatePhase: reload the Backup, and write the target phase and reason to
   * its status unless the stored status already carries both.
   */
  function UpdatePhaseStep(inst: Backup, s: StoreState, phase: string, phaseErr: Option<Error>,
                           reloadFault: Option<Error>, updateFault: Option<Error>): (r: PhaseOutcome)
    requires WellKeyed(s)
    ensures WellKeyed(r.store)
    // a failed reload is returned wrapped, and no status write is requested
    ensures GetBackup(s, inst.key, reloadFault).Err? ==>
      r == PhaseOutcome(inst, s, Some(Wrapped(ReloadFailed, GetBackup(s, inst.key, reloadFault).error)))
    // after a reload the in-memory Backup is the stored one carrying the target phase and reason
    ensures GetBackup(s, inst.key, reloadFault).Ok? ==>
      r.instance == WithPhase(GetBackup(s, inst.key, reloadFault).value, phase, Reason(phaseErr))
    // a status that is already current is not written again
    ensures GetBackup(s, inst.key, reloadFault).Ok? &&
            IsCurrent(GetBackup(s, inst.key, reloadFault).value.status, phase, Reason(phaseErr)) ==>
      r.err.None? && r.store == s
    // otherwise exactly one status write is requested, and its failure is returned wrapped
    ensures GetBackup(s, inst.key, reloadFault).Ok? &&
            !IsCurrent(GetBackup(s, inst.key, reloadFault).value.status, phase, Reason(phaseErr)) ==>
      && r.store.statusUpdates == s.statusUpdates + 1
      && (updateFault.None? ==> r.err.None?)
      && (updateFault.Some? ==> r.err == Some(Wrapped(UpdateFailed, updateFault.value)) && r.store.backups == s.backups)
    // success means the stored status now carries the target phase and reason
    ensures r.err.None? ==>
      inst.key in r.store.backups && IsCurrent(r.store.backups[inst.key].status, phase, Reason(phaseErr))
    // only the phase and reason of this Backup can change
    ensures r.store.claims == s.claims && r.store.claimCreates == s.claimCreates
    ensures r.store.statusUpdates <= s.statusUpdates + 1
    ensures r.store.backups.Keys == s.backups.Keys
    ensures forall k :: k in s.backups && k != inst.key ==> r.store.backups[k] == s.backups[k]
    ensures forall k :: k in s.backups ==>
      r.store.backups[k].spec == s.backups[k].spec && r.store.backups[k].status.pvc == s.backups[k].status.pvc
  {
    match GetBackup(s, inst.key, reloadFault)
    case Err(e) => PhaseOutcome(inst, s, Some(Wrapped(ReloadFailed, e)))
    case Ok(current) =>
      var reason := Reason(phaseErr);
      if IsCurrent(current.status, phase, reason) then
        PhaseOutcome(current, s, None)
      else
        var updated := WithPhase(current, phase, reason);
        var (written, err) := UpdateStatus(s, updated, updateFault);
        PhaseOutcome(updated, written, if err.Some? then Some(Wrapped(UpdateFailed, err.value)) else None)
  }

  /** A call that succeeded leaves nothing for a repeated call to write. */
  lemma UpdatePhaseAgainWritesNothing(inst: Backup, s: StoreState, phase: string, phaseErr: Option<Error>,
                                      reloadFault: Option<Error>, updateFault: Option<Error>,
                                      updateFaultAgain: Option<Error>)
    requires WellKeyed(s)
    requires UpdatePhaseStep(inst, s, phase, phaseErr, reloadFault, updateFault).err.None?
    ensures var first := UpdatePhaseStep(inst, s, phase, phaseErr, reloadFault, updateFault);
            var again := UpdatePhaseStep(first.instance, first.store, phase, phaseErr, None, updateFaultAgain);
            again.err.None? && again.store == first.store
  {
  }

  /** UpdatePhase called `n` times with the same arguments, no request failing. */
  function RepeatUpdatePhase(inst: Backup, s: StoreState, phase: string, phaseErr: Option<Error>, n: nat): PhaseOutcome
    requires WellKeyed(s) && n >= 1
    decreases n
  {
    var first := UpdatePhaseStep(inst, s, phase, phaseErr, None, None);
    if n == 1 then first else RepeatUpdatePhase(first.instance, first.store, phase, phaseErr, n - 1)
  }

  /**
   * However often UpdatePhase is retried with no request failing, at most
   * one status write is requested: none when the stored status is already
   * current.
   */
  lemma {:induction false} RetriedUpdatePhaseWritesAtMostOnce(inst: Backup, s: StoreState, phase: string,
                                                              phaseErr: Option<Error>, n: nat)
    requires WellKeyed(s) && inst.key in s.backups && n >= 1
    decreases n
    ensures var r := RepeatUpdatePhase(inst, s, phase, phaseErr, n);
      && r.err.None?
      && r.store.statusUpdates ==
           s.statusUpdates + (if IsCurrent(s.backups[inst.key].status, phase, Reason(phaseErr)) then 0 else 1)
      && inst.key in r.store.backups
      && IsCurrent(r.store.backups[inst.key].status, phase, Reason(phaseErr))
  {
    if n > 1 {
      var first := UpdatePhaseStep(inst, s, phase, phaseErr, None, None);
      assert first.instance.key == inst.key;
      RetriedUpdatePhaseWritesAtMostOnce(first.instance, first.store, phase, phaseErr, n - 1);
    }
  }

  /** The faults the cluster answers one UpdatePhase call with. */
  datatype PhaseAttempt = PhaseAttempt(reloadFault: Option<Error>, updateFault: Option<Error>)

  /** UpdatePhase called once per attempt with the same phase and error. */
  function RetryUpdatePhase(inst: Backup, s: StoreState, phase: string, phaseErr: Option<Error>,
                            attempts: seq<PhaseAttempt>): PhaseOutcome
    requires WellKeyed(s)
    decreases |attempts|
  {
    if attempts == [] then PhaseOutcome(inst, s, None)
    else
      var step := UpdatePhaseStep(inst, s, phase, phaseErr, attempts[0].reloadFault, attempts[0].updateFault);
      if |attempts| == 1 then step else RetryUpdatePhase(step.instance, step.store, phase, phaseErr, attempts[1..])
  }

  /**
   * Once the target phase and reason are stored, retries request no status
   * write and change nothing, whatever the cluster answers them with.
   */
  lemma {:induction false} CurrentStatusIsNeverRewritten(inst: Backup, s: StoreState, phase: string,
                                                         phaseErr: Option<Error>, attempts: seq<PhaseAttempt>)
    requires WellKeyed(s) && inst.key in s.backups
    requires IsCurrent(s.backups[inst.key].status, phase, Reason(phaseErr))
    decreases |attempts|
    ensures RetryUpdatePhase(inst, s, phase, phaseErr, attempts).store == s
  {
    if |attempts| > 1 {
      var step := UpdatePhaseStep(inst, s, phase, phaseErr, attempts[0].reloadFault, attempts[0].updateFault);
      assert step.instance.key == inst.key;
      CurrentStatusIsNeverRewritten(step.instance, step.store, phase, phaseErr, attempts[1..]);
    }
  }

  /**
   * After the first call that succeeds, no retry requests a status write,
   * whatever the cluster answers any call with.
   */
  lemma AfterSuccessNoFurtherWrites(inst: Backup, s: StoreState, phase: string, phaseErr: Option<Error>,
                                    first: PhaseAttempt, attempts: seq<PhaseAttempt>)
    requires WellKeyed(s)
    requires UpdatePhaseStep(inst, s, phase, phaseErr, first.reloadFault, first.updateFault).err.None?
    ensures var done := UpdatePhaseStep(inst, s, phase, phaseErr, first.reloadFault, first.updateFault);
            RetryUpdatePhase(done.instance, done.store, phase, phaseErr, attempts).store == done.store
  {
    var done := UpdatePhaseStep(inst, s, phase, phaseErr, first.reloadFault, first.updateFault);
    assert done.instance.key == inst.key;
    CurrentStatusIsNeverRewritten(done.instance, done.store, phase, phaseErr, attempts);
  }

  // ---------------------------------------------------------------------
  // getOrCreatePvc
  // ---------------------------------------------------------------------

  /** The size to request: the default when the Backup sets none, else its size parsed. */
  function RequestedStorage(v: BackupVolumeSpec, p: Platform): Result<Quantity, Error>
  {
    if v.storage.None? then Ok(p.defaultPVSize) else p.parseQuantity(v.storage.value)
  }

  /** The claim getOrCreatePvc builds for `b` with the given size. */
  function NewClaim(b: Backup, storage: Quantity): Claim
  {
    Claim(b.key, [ReadWriteOnce], map[ResourceStorage := storage], b.spec.volume.storageClassName)
  }

  /**
   * A claim provisioned for `b`: named after it in its namespace, exactly one
   * access mode (single writer), the Backup's storage class as given, and the
   * default size or the parsed one.
   */
  predicate ProvisionedFor(c: Claim, b: Backup, p: Platform)
  {
    && c.key == b.key
    && c.accessModes == [ReadWriteOnce]
    && c.storageClassName == b.spec.volume.storageClassName
    && match b.spec.volume.storage
       case None => c.requests == map[ResourceStorage := p.defaultPVSize]
       case Some(size) => p.parseQuantity(size).Ok? && c.requests == map[ResourceStorage := p.parseQuantity(size).value]
  }

  /** getOrCreatePvc: keep an existing claim, or create the Backup's own. */
  function EnsureClaimStep(inst: Backup, s: StoreState, p: Platform,
                           lookupFault: Option<Error>, createFault: Option<Error>): (r: (StoreState, Option<Error>))
    requires WellKeyed(s)
    ensures WellKeyed(r.0)
    // an existing claim is kept as it is and nothing is requested
    ensures GetClaim(s, inst.key, lookupFault).Ok? ==> r == (s, None)
    // a lookup error other than not-found is returned unchanged
    ensures GetClaim(s, inst.key, lookupFault).Err? && !IsNotFound(GetClaim(s, inst.key, lookupFault).error) ==>
      r == (s, Some(GetClaim(s, inst.key, lookupFault).error))
    // a size that does not parse is never turned into a claim; it is returned after a not-found lookup
    ensures inst.spec.volume.storage.Some? && p.parseQuantity(inst.spec.volume.storage.value).Err? ==>
      && r.0 == s
      && (GetClaim(s, inst.key, lookupFault).Err? && IsNotFound(GetClaim(s, inst.key, lookupFault).error) ==>
            r.1 == Some(p.parseQuantity(inst.spec.volume.storage.value).error))
    // otherwise exactly one create request; any failure of it, already-exists included, is returned wrapped
    ensures GetClaim(s, inst.key, lookupFault).Err? && IsNotFound(GetClaim(s, inst.key, lookupFault).error) &&
            RequestedStorage(inst.spec.volume, p).Ok? ==>
      && r.0.claimCreates == s.claimCreates + 1
      && (createFault.Some? ==> r.1 == Some(Wrapped(CreateFailed, createFault.value)))
      && (r.1.Some? ==> r.1.value.Wrapped? && r.1.value.context == CreateFailed && r.0.claims == s.claims)
    // a create that reaches the store fails with already-exists when the name is taken, and succeeds otherwise
    ensures GetClaim(s, inst.key, lookupFault).Err? && IsNotFound(GetClaim(s, inst.key, lookupFault).error) &&
            RequestedStorage(inst.spec.volume, p).Ok? && createFault.None? ==>
      r.1 == (if inst.key in s.claims then Some(Wrapped(CreateFailed, AlreadyExists(ClaimResourceName, inst.key.name)))
              else None)
    // on success the Backup's claim exists
    ensures r.1.None? ==> inst.key in r.0.claims
    // no claim is overwritten, and the only claim that can appear is the Backup's own
    ensures r.0.backups == s.backups && r.0.statusUpdates == s.statusUpdates
    ensures r.0.claimCreates <= s.claimCreates + 1
    ensures forall k :: k in s.claims ==> k in r.0.claims && r.0.claims[k] == s.claims[k]
    ensures forall k :: k in r.0.claims && k !in s.claims ==> k == inst.key && ProvisionedFor(r.0.claims[k], inst, p)
  {
    match GetClaim(s, inst.key, lookupFault)
    case Ok(_) => (s, None)
    case Err(e) =>
      if !IsNotFound(e) then (s, Some(e))
      else
        match RequestedStorage(inst.spec.volume, p)
        case Err(parseErr) => (s, Some(parseErr))
        case Ok(storage) =>
          var (created, err) := CreateClaim(s, NewClaim(inst, storage), createFault);
          (created, if err.Some? then Some(Wrapped(CreateFailed, err.value)) else None)
  }

  /** Two consecutive calls: once the first succeeds, the second succeeds and changes nothing. */
  lemma EnsureClaimTwiceKeepsOneClaim(inst: Backup, s: StoreState, p: Platform,
                                      lookupFault: Option<Error>, createFault: Option<Error>,
                                      createFaultAgain: Option<Error>)
    requires WellKeyed(s)
    requires EnsureClaimStep(inst, s, p, lookupFault, createFault).1.None?
    ensures var first := EnsureClaimStep(inst, s, p, lookupFault, createFault);
            EnsureClaimStep(inst, first.0, p, None, createFaultAgain) == (first.0, None)
  {
  }

  /** The faults the cluster answers one getOrCreatePvc call with. */
  datatype Attempt = Attempt(lookupFault: Option<Error>, createFault: Option<Error>)

  /** getOrCreatePvc called once per attempt: the final store and the last call's error. */
  function RetryEnsureClaim(inst: Backup, s: StoreState, p: Platform, attempts: seq<Attempt>): (StoreState, Option<Error>)
    requires WellKeyed(s)
    decreases |attempts|
  {
    if attempts == [] then (s, None)
    else
      var step := EnsureClaimStep(inst, s, p, attempts[0].lookupFault, attempts[0].createFault);
      if |attempts| == 1 then step else RetryEnsureClaim(inst, step.0, p, attempts[1..])
  }

  /**
   * Whatever the cluster answers, retries never overwrite a claim and never
   * add any claim but the Backup's own, provisioned as getOrCreatePvc builds it.
   */
  lemma {:induction false} RetriesAddOnlyTheBackupsClaim(inst: Backup, s: StoreState, p: Platform, attempts: seq<Attempt>)
    requires WellKeyed(s)
    decreases |attempts|
    ensures var r := RetryEnsureClaim(inst, s, p, attempts);
      && WellKeyed(r.0)
      && r.0.backups == s.backups
      && r.0.statusUpdates == s.statusUpdates
      && (forall k :: k in s.claims ==> k in r.0.claims && r.0.claims[k] == s.claims[k])
      && (forall k :: k in r.0.claims && k !in s.claims ==> k == inst.key && ProvisionedFor(r.0.claims[k], inst, p))
  {
    if |attempts| > 1 {
      var step := EnsureClaimStep(inst, s, p, attempts[0].lookupFault, attempts[0].createFault);
      RetriesAddOnlyTheBackupsClaim(inst, step.0, p, attempts[1..]);
    }
  }

  /**
   * With no request failing, any number of calls request exactly one claim
   * creation when the claim is missing and its size is valid, none when it
   * exists, and none when the size does not parse, each call then failing
   * with the parse error.
   */
  lemma {:induction false} RetriesWithoutFaultsCreateOnce(inst: Backup, s: StoreState, p: Platform, attempts: seq<Attempt>)
    requires WellKeyed(s) && |attempts| >= 1
    requires forall i :: 0 <= i < |attempts| ==> attempts[i] == Attempt(None, None)
    decreases |attempts|
    ensures var r := RetryEnsureClaim(inst, s, p, attempts);
      && (inst.key in s.claims ==> r == (s, None))
      && (inst.key !in s.claims && RequestedStorage(inst.spec.volume, p).Ok? ==>
            && r.1.None?
            && r.0.claims == s.claims[inst.key := NewClaim(inst, RequestedStorage(inst.spec.volume, p).value)]
            && r.0.claimCreates == s.claimCreates + 1)
      && (inst.key !in s.claims && RequestedStorage(inst.spec.volume, p).Err? ==>
            r == (s, Some(RequestedStorage(inst.spec.volume, p).error)))
  {
    if |attempts| > 1 {
      var step := EnsureClaimStep(inst, s, p, None, None);
      RetriesWithoutFaultsCreateOnce(inst, step.0, p, attempts[1..]);
    }
  }

  // ---------------------------------------------------------------------
  // Descriptors: pod labels, the worker spec, the agent's configuration
  // ---------------------------------------------------------------------

  /** `m` holds the cluster's service labels plus `backup_cr` naming the Backup. */
  predicate LabelsFor(m: map<string, string>, backup: string, cluster: string,
                      serviceLabels: string -> map<string, string>)
  {
    && m.Keys == serviceLabels(cluster).Keys + {BackupLabel}
    && BackupLabel in m && m[BackupLabel] == backup
    && forall k :: k in serviceLabels(cluster) && k != BackupLabel ==> m[k] == serviceLabels(cluster)[k]
  }

  method PodLabels(backup: string, cluster: string, serviceLabels: string -> map<string, string>)
    returns (m: map<string, string>)
    ensures LabelsFor(m, backup, cluster, serviceLabels)
  {
    m := serviceLabels(cluster);
    m := m[BackupLabel := backup];
  }

  /** The configuration Exec sends to the agent. */
  function ExecConfig(b: Backup): (c: BackupConfig)
    ensures c.directory == DataMountPath
    ensures b.spec.resources.None? ==> c.resources == NoResources
    ensures b.spec.resources.Some? ==> c.resources == b.spec.resources.value
  {
    var resources := if b.spec.resources.None? then NoResources else b.spec.resources.value;
    BackupConfig(DataMountPath, resources)
  }

  // ---------------------------------------------------------------------
  // The adapter object
  // ---------------------------------------------------------------------

  /** One Backup as the operation engine drives it, with the client it talks to. */
  class BackupResource {
    var instance: Backup
    const client: Store
    const platform: Platform

    constructor (instance: Backup, client: Store, platform: Platform)
      ensures this.instance == instance && this.client == client && this.platform == platform
    {
      this.instance := instance;
      this.client := client;
      this.platform := platform;
    }

    function Cluster(): string
      reads this
    {
      instance.spec.cluster
    }

    function Phase(): string
      reads this
    {
      instance.status.phase
    }

    method UpdatePhase(phase: string, phaseErr: Option<Error>, reloadFault: Option<Error>, updateFault: Option<Error>)
      returns (err: Option<Error>)
      requires client.Valid()
      modifies this, client
      ensures client.Valid()
      ensures PhaseOutcome(instance, client.State(), err) ==
              UpdatePhaseStep(old(instance), old(client.State()), phase, phaseErr, reloadFault, updateFault)
      ensures err.None? ==> Phase() == phase
    {
      var reloaded := client.Get(instance.key, reloadFault);
      if reloaded.Err? {
        return Some(Wrapped(ReloadFailed, reloaded.error));
      }
      instance := reloaded.value;
      var reason := Reason(phaseErr);
      if instance.status.phase == phase && instance.status.reason == reason {
        return None;
      }
      instance := WithPhase(instance, phase, reason);
      var updateErr := client.Update(instance, updateFault);
      if updateErr.Some? {
        return Some(Wrapped(UpdateFailed, updateErr.value));
      }
      return None;
    }

    method GetOrCreatePvc(lookupFault: Option<Error>, createFault: Option<Error>) returns (err: Option<Error>)
      requires client.Valid()
      modifies client
      ensures client.Valid()
      ensures (client.State(), err) == EnsureClaimStep(instance, old(client.State()), platform, lookupFault, createFault)
    {
      var existing := client.GetPvc(instance.key, lookupFault);
      if existing.Ok? {
        return None;
      }
      if !IsNotFound(existing.error) {
        return Some(existing.error);
      }
      var storage: Quantity;
      if instance.spec.volume.storage.None? {
        storage := platform.defaultPVSize;
      } else {
        var parsed := platform.parseQuantity(instance.spec.volume.storage.value);
        if parsed.Err? {
          return Some(parsed.error);
        }
        storage := parsed.value;
      }
      var createErr := client.Create(NewClaim(instance, storage), createFault);
      if createErr.Some? {
        return Some(Wrapped(CreateFailed, createErr.value));
      }
      return None;
    }

    method Init(lookupFault: Option<Error>, createFault: Option<Error>) returns (r: Result<WorkerSpec, Error>)
      requires client.Valid()
      modifies this, client
      ensures client.Valid()
      ensures client.State() == EnsureClaimStep(old(instance), old(client.State()), platform, lookupFault, createFault).0
      ensures r.Err? <==> EnsureClaimStep(old(instance), old(client.State()), platform, lookupFault, createFault).1.Some?
      // a provisioning error is returned as it is, with no spec and the Backup untouched
      ensures r.Err? ==>
        && r.error == EnsureClaimStep(old(instance), old(client.State()), platform, lookupFault, createFault).1.value
        && instance == old(instance)
      // on success the status references the claim, which exists and backs the worker's volume
      ensures r.Ok? ==>
        && instance == old(instance).(status := old(instance).status.(pvc := PvcRefPrefix + old(instance).key.name))
        && old(instance).key in client.claims
        && r.value.volume == VolumeSpec(true, DataMountPath, old(instance).key.name)
        && r.value.volume.mountPath == ExecConfig(old(instance)).directory
        && r.value.container == old(instance).spec.container
        && LabelsFor(r.value.podLabels, old(instance).key.name, old(Cluster()), platform.serviceLabels)
    {
      var err := GetOrCreatePvc(lookupFault, createFault);
      if err.Some? {
        return Err(err.value);
      }
      instance := instance.(status := instance.status.(pvc := PvcRefPrefix + instance.key.name));
      var labels := PodLabels(instance.key.name, instance.spec.cluster, platform.serviceLabels);
      r := Ok(WorkerSpec(VolumeSpec(true, DataMountPath, instance.key.name), instance.spec.container, labels));
    }
  }
}
