/** Keeping the previous container aside while a new one starts: rename it
    to a backup name before the update, rename it back and start it when
    the update fails, remove it when the update succeeds. */
module VersionRollback {
  import opened Wrappers
  import opened Effects
  import opened Contracts
  import opened VersionErrors
  import opened VersionTypes

  datatype RollbackManager = RollbackManager(containerName: string, backupContainerName: string)

  /** `RollbackManager::new`: the backup name is derived from the container
      and the operation, and never equals the container's own name. */
  function NewRollbackManager(containerName: string, operationId: string): (m: RollbackManager)
    ensures m.containerName == containerName
    ensures m.backupContainerName == BackupName(containerName, operationId)
    ensures m.containerName != m.backupContainerName
  {
    RollbackManager(containerName, BackupName(containerName, operationId))
  }

  // ---------------------------------------------------------------------
  // The command lines issued

  function ExistsArgv(m: RollbackManager): Argv {
    ["docker", "inspect", m.containerName]
  }

  function BackupArgv(m: RollbackManager): Argv {
    ["docker", "rename", m.containerName, m.backupContainerName]
  }

  function RemoveNewArgv(m: RollbackManager): Argv {
    ["docker", "rm", "-f", m.containerName]
  }

  function RestoreArgv(m: RollbackManager): Argv {
    ["docker", "rename", m.backupContainerName, m.containerName]
  }

  function StartArgv(m: RollbackManager): Argv {
    ["docker", "start", m.containerName]
  }

  function CleanupArgv(m: RollbackManager): Argv {
    ["docker", "rm", "-f", m.backupContainerName]
  }

  // ---------------------------------------------------------------------
  // Backup

  /** `backup_container`. A container that cannot be inspected is taken to
      be absent and the step is skipped without renaming anything; an
      inspection that cannot be started fails the step; otherwise the
      container is renamed to the backup name, and a rename that cannot be
      started is a hard error. */
  function BackupContainer(m: RollbackManager, sh: Shell): (r: Result<UpdateStepLog, VersionError>)
    ensures r.Err? <==> sh.run(ExistsArgv(m)).Success() && sh.run(BackupArgv(m)).SpawnError?
    ensures r.Err? ==> r.error == VersionError.StepFailed("backup_container",
                                   "Failed to backup container: " + sh.run(BackupArgv(m)).message)
    ensures r.Ok? ==> r.value.step == "backup_container"
    ensures r.Ok? ==> (r.value.skipped <==> sh.run(ExistsArgv(m)).Exited? && !sh.run(ExistsArgv(m)).Success())
    ensures r.Ok? ==> (r.value.ok <==> r.value.skipped
                                       || (sh.run(ExistsArgv(m)).Success() && sh.run(BackupArgv(m)).Success()))
    ensures r.Ok? ==> (r.value.error.None? <==> r.value.ok)
    ensures r.Ok? && sh.run(ExistsArgv(m)).SpawnError? ==>
              r.value.error == Some("Failed to check container: " + sh.run(ExistsArgv(m)).message)
    ensures r.Ok? ==> r.value.command == Some(
              if sh.run(ExistsArgv(m)).Success()
              then "docker rename " + m.containerName + " " + m.backupContainerName
              else "docker inspect " + m.containerName)
  {
    var probe := sh.run(ExistsArgv(m));
    if probe.Exited? && !probe.Success() then
      Ok(UpdateStepLog("backup_container", Some("docker inspect " + m.containerName), true, true,
                       "Container does not exist, skipping backup", None, sh.tookMs(ExistsArgv(m))))
    else if probe.SpawnError? then
      Ok(UpdateStepLog("backup_container", Some("docker inspect " + m.containerName), false, false,
                       "", Some("Failed to check container: " + probe.message), sh.tookMs(ExistsArgv(m))))
    else
      var renamed := sh.run(BackupArgv(m));
      if renamed.SpawnError? then
        Err(VersionError.StepFailed("backup_container", "Failed to backup container: " + renamed.message))
      else
        var command := Some("docker rename " + m.containerName + " " + m.backupContainerName);
        var elapsed := sh.tookMs(ExistsArgv(m)) + sh.tookMs(BackupArgv(m));
        if !renamed.Success() then
          Ok(UpdateStepLog("backup_container", command, false, false, renamed.Combined(),
                           Some(renamed.Combined()), elapsed))
        else
          Ok(UpdateStepLog("backup_container", command, true, false, renamed.Combined(), None, elapsed))
  }

  /** When the container is absent the rename is never issued: its
      outcome does not matter. */
  lemma SkippedBackupIgnoresRename(m: RollbackManager, sh1: Shell, sh2: Shell)
    requires sh1.run(ExistsArgv(m)) == sh2.run(ExistsArgv(m))
    requires sh1.tookMs(ExistsArgv(m)) == sh2.tookMs(ExistsArgv(m))
    requires !sh1.run(ExistsArgv(m)).Success()
    ensures BackupContainer(m, sh1) == BackupContainer(m, sh2)
  {
  }

  // ---------------------------------------------------------------------
  // Rollback

  /** `rollback`: force-remove the new container, rename the backup back and
      start it. The restore is reported as attempted, for the backup name,
      on every path; it succeeds exactly when both the rename back and the
      start succeed, and every failure carries its message. */
  function Rollback(m: RollbackManager, sh: Shell): (r: RollbackResult)
    ensures r.attempted && r.backupContainer == Some(m.backupContainerName)
    ensures r.restored <==> sh.run(RestoreArgv(m)).Success() && sh.run(StartArgv(m)).Success()
    ensures r.restored <==> r.error.None?
    ensures sh.run(RestoreArgv(m)).SpawnError? ==>
              r.error == Some("Failed to execute docker rename: " + sh.run(RestoreArgv(m)).message)
    ensures sh.run(RestoreArgv(m)).Exited? && !sh.run(RestoreArgv(m)).Success() ==>
              r.error == Some("Failed to restore backup container: " + sh.run(RestoreArgv(m)).Combined())
    ensures sh.run(RestoreArgv(m)).Success() && sh.run(StartArgv(m)).SpawnError? ==>
              r.error == Some("Failed to execute docker start: " + sh.run(StartArgv(m)).message)
    ensures sh.run(RestoreArgv(m)).Success() && sh.run(StartArgv(m)).Exited?
            && !sh.run(StartArgv(m)).Success() ==>
              r.error == Some("Failed to start restored container: " + sh.run(StartArgv(m)).Combined())
  {
    // The removal of the new container is issued and its output discarded.
    var restore := sh.run(RestoreArgv(m));
    var backup := Some(m.backupContainerName);
    if restore.Success() then
      var start := sh.run(StartArgv(m));
      if start.Success() then
        RollbackResult(true, true, backup, None)
      else if start.Exited? then
        RollbackResult(true, false, backup, Some("Failed to start restored container: " + start.Combined()))
      else
        RollbackResult(true, false, backup, Some("Failed to execute docker start: " + start.message))
    else if restore.Exited? then
      RollbackResult(true, false, backup, Some("Failed to restore backup container: " + restore.Combined()))
    else
      RollbackResult(true, false, backup, Some("Failed to execute docker rename: " + restore.message))
  }

  /** The removal of the failed container never changes the result, and
      the start is never issued after a failed rename back. */
  lemma RollbackDependsOnlyOnRestore(m: RollbackManager, sh1: Shell, sh2: Shell)
    requires sh1.run(RestoreArgv(m)) == sh2.run(RestoreArgv(m))
    requires sh1.run(RestoreArgv(m)).Success() ==> sh1.run(StartArgv(m)) == sh2.run(StartArgv(m))
    ensures Rollback(m, sh1) == Rollback(m, sh2)
  {
  }

  // ---------------------------------------------------------------------
  // Cleanup

  /** `cleanup_backup`: force-remove the backup; any failure is a failed
      "cleanup_backup" step. */
  function CleanupBackup(m: RollbackManager, sh: Shell): (r: Result<Unit, VersionError>)
    ensures r.Ok? <==> sh.run(CleanupArgv(m)).Success()
    ensures r.Err? ==> r.error.StepFailed? && r.error.step == "cleanup_backup"
    ensures sh.run(CleanupArgv(m)).SpawnError? ==>
              r == Err(VersionError.StepFailed("cleanup_backup",
                                               "Failed to cleanup backup: " + sh.run(CleanupArgv(m)).message))
    ensures sh.run(CleanupArgv(m)).Exited? && !sh.run(CleanupArgv(m)).Success() ==>
              r == Err(VersionError.StepFailed("cleanup_backup", sh.run(CleanupArgv(m)).Combined()))
  {
    var removed := sh.run(CleanupArgv(m));
    if removed.SpawnError? then
      Err(VersionError.StepFailed("cleanup_backup", "Failed to cleanup backup: " + removed.message))
    else if !removed.Success() then
      Err(VersionError.StepFailed("cleanup_backup", removed.Combined()))
    else
      Ok(Unit)
  }

  // ---------------------------------------------------------------------
  // What the renames do to the machine's container names

  /** `docker rename from to` on the set of container names: it takes
      effect only when `from` exists and `to` is free. */
  function Renamed(names: set<string>, from: string, to: string): (r: set<string>)
    ensures from in names && to !in names ==> to in r && (from != to ==> from !in r)
    ensures !(from in names && to !in names) ==> r == names
  {
    if from in names && to !in names then names - {from} + {to} else names
  }

  /** Backing up, starting a new container under the old name, removing it
      and renaming the backup back leaves exactly the names there were
      before the update: the rename back undoes the backup. */
  lemma {:induction false} BackupThenRollbackRestoresNames(containerName: string, operationId: string, names: set<string>)
    requires containerName in names
    requires BackupName(containerName, operationId) !in names
    ensures var m := NewRollbackManager(containerName, operationId);
            var backedUp := Renamed(names, m.containerName, m.backupContainerName);
            var started := backedUp + {m.containerName};
            var removed := started - {m.containerName};
            Renamed(removed, m.backupContainerName, m.containerName) == names
  {
    var m := NewRollbackManager(containerName, operationId);
    var c, b := m.containerName, m.backupContainerName;
    var backedUp := Renamed(names, c, b);
    assert backedUp == names - {c} + {b};
    var removed := backedUp + {c} - {c};
    assert removed == names - {c} + {b};
    assert b in removed && c !in removed;
    assert removed - {b} + {c} == names;
  }
}
