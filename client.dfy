/**
 * An in-memory stand-in for the cluster's object store as the backup
 * controller's client sees it: Backups with their status subresource,
 * volume claims, and a count of the write requests it has received.
 * A request that the real API server would fail is modelled by a `fault`
 * argument: `Some(e)` means the server answers that request with `e`.
 */
module Client {
  import opened Wrappers
  import opened KubeApi
  import opened BackupApi

  const BackupResourceName := "backups.infinispan.org"
  const ClaimResourceName := "persistentvolumeclaims"

  /** The store's contents and the number of status updates and claim creations requested. */
  datatype StoreState = StoreState(
    backups: map<Key, Backup>,
    claims: map<Key, Claim>,
    statusUpdates: nat,
    claimCreates: nat)

  /** Every object is filed under its own key. */
  predicate WellKeyed(s: StoreState)
  {
    && (forall k :: k in s.backups ==> s.backups[k].key == k)
    && (forall k :: k in s.claims ==> s.claims[k].key == k)
  }

  function GetBackup(s: StoreState, key: Key, fault: Option<Error>): Result<Backup, Error>
  {
    if fault.Some? then Err(fault.value)
    else if key in s.backups then Ok(s.backups[key])
    else Err(NotFound(BackupResourceName, key.name))
  }

  function GetClaim(s: StoreState, key: Key, fault: Option<Error>): Result<Claim, Error>
  {
    if fault.Some? then Err(fault.value)
    else if key in s.claims then Ok(s.claims[key])
    else Err(NotFound(ClaimResourceName, key.name))
  }

  /** A create request: refused when the key is taken, never overwrites. */
  function CreateClaim(s: StoreState, c: Claim, fault: Option<Error>): (StoreState, Option<Error>)
  {
    var requested := s.(claimCreates := s.claimCreates + 1);
    if fault.Some? then (requested, fault)
    else if c.key in s.claims then (requested, Some(AlreadyExists(ClaimResourceName, c.key.name)))
    else (requested.(claims := s.claims[c.key := c]), None)
  }

  /** A status update request: replaces the status of the stored Backup, never its spec. */
  function UpdateStatus(s: StoreState, b: Backup, fault: Option<Error>): (StoreState, Option<Error>)
  {
    var requested := s.(statusUpdates := s.statusUpdates + 1);
    if fault.Some? then (requested, fault)
    else if b.key !in s.backups then (requested, Some(NotFound(BackupResourceName, b.key.name)))
    else (requested.(backups := s.backups[b.key := s.backups[b.key].(status := b.status)]), None)
  }

  class Store {
    var backups: map<Key, Backup>
    var claims: map<Key, Claim>
    var statusUpdates: nat
    var claimCreates: nat

    function State(): StoreState
      reads this
    {
      StoreState(backups, claims, statusUpdates, claimCreates)
    }

    ghost predicate Valid()
      reads this
    {
      WellKeyed(State())
    }

    constructor (backups: map<Key, Backup>, claims: map<Key, Claim>)
      requires WellKeyed(StoreState(backups, claims, 0, 0))
      ensures Valid()
      ensures State() == StoreState(backups, claims, 0, 0)
    {
      this.backups := backups;
      this.claims := claims;
      statusUpdates := 0;
      claimCreates := 0;
    }

    method Get(key: Key, fault: Option<Error>) returns (r: Result<Backup, Error>)
      ensures r == GetBackup(State(), key, fault)
    {
      r := GetBackup(State(), key, fault);
    }

    method GetPvc(key: Key, fault: Option<Error>) returns (r: Result<Claim, Error>)
      ensures r == GetClaim(State(), key, fault)
    {
      r := GetClaim(State(), key, fault);
    }

    method Create(c: Claim, fault: Option<Error>) returns (err: Option<Error>)
      requires Valid()
      modifies this
      ensures Valid()
      ensures (State(), err) == CreateClaim(old(State()), c, fault)
    {
      claimCreates := claimCreates + 1;
      if fault.Some? {
        err := fault;
      } else if c.key in claims {
        err := Some(AlreadyExists(ClaimResourceName, c.key.name));
      } else {
        claims := claims[c.key := c];
        err := None;
      }
    }

    method Update(b: Backup, fault: Option<Error>) returns (err: Option<Error>)
      requires Valid()
      modifies this
      ensures Valid()
      ensures (State(), err) == UpdateStatus(old(State()), b, fault)
    {
      statusUpdates := statusUpdates + 1;
      if fault.Some? {
        err := fault;
      } else if b.key !in backups {
        err := Some(NotFound(BackupResourceName, b.key.name));
      } else {
        backups := backups[b.key := backups[b.key].(status := b.status)];
        err := None;
      }
    }
  }
}
