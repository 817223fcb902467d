/** Replacing the managed certificate directory, all or nothing
    (internal/server/certificate_staging.go and its use in internal/server/init.go). */
module CertificateSwap {
  import opened Prelude

  /** The managed PKI directory: the CA, its backup metadata, and the server certificate. */
  datatype Directory = Directory(caCert: string, caKey: string, metadata: Option<string>, leaf: string)

  /** What is at the live and the backup path. */
  datatype Paths = Paths(live: Option<Directory>, backup: Option<Directory>)

  /** The live path as staging finds it. */
  datatype Current = Missing | Unsafe | Unavailable | Present(directory: Directory, caLoads: bool)

  /** How the system calls of one `rollback` end. A failed removal may leave anything behind. */
  datatype RollbackCalls = RollbackCalls(removed: bool, leftover: Option<Directory>, renamed: bool, synced: bool)

  /** How the system calls of one `install` end; `restored` is the rename that undoes the
      first one, and `undo` is for the rollback after a failed sync. */
  datatype InstallCalls = InstallCalls(
    made: bool, movedAway: bool, movedIn: bool, restored: bool, synced: bool, undo: RollbackCalls)

  /** The rollback could not bring the original back to the live path. */
  predicate UndoFails(calls: RollbackCalls, hadCurrent: bool) {
    !calls.removed || (hadCurrent && !calls.renamed)
  }

  /** Every call of the install succeeds. */
  predicate Installs(calls: InstallCalls, hadCurrent: bool) {
    calls.made && (hadCurrent ==> calls.movedAway) && calls.movedIn && calls.synced
  }

  /** The original is gone from the live path although `install` reported a failure:
      the undoing rename failed, or the rollback did. */
  predicate Stranded(calls: InstallCalls, hadCurrent: bool) {
    calls.made && (hadCurrent ==> calls.movedAway) &&
    if !calls.movedIn then hadCurrent && !calls.restored
    else !calls.synced && UndoFails(calls.undo, hadCurrent)
  }

  class ManagedCertificateSwap {
    var paths: Paths
    var staged: Option<Directory>
    var hadCurrent: bool
    var installed: bool
    var committed: bool
    /** The live directory before the swap, and every state of both paths so far. */
    ghost const original: Option<Directory>
    ghost var history: seq<Paths>

    ghost predicate Intact(p: Paths) {
      original.Some? ==> p.live == original || p.backup == original
    }

    ghost predicate Valid()
      reads this
    {
      && hadCurrent == original.Some?
      && (!committed ==> forall i :: 0 <= i < |history| ==> Intact(history[i]))
      && history != [] && history[|history| - 1] == paths
      && (installed && !committed ==> paths.backup == original)
      && (staged.Some? && original.Some? ==> staged.value.caCert == original.value.caCert && staged.value.caKey == original.value.caKey)
    }

    /** A swap around a staged directory that keeps the current CA, if there is one. */
    constructor (live: Option<Directory>, staged: Directory)
      requires live.Some? ==> staged.caCert == live.value.caCert && staged.caKey == live.value.caKey
      ensures Valid() && original == live && paths == Paths(live, None) && this.staged == Some(staged)
      ensures hadCurrent == live.Some? && !installed && !committed && history == [paths]
    {
      original := live;
      paths, this.staged, hadCurrent, installed, committed := Paths(live, None), Some(staged), live.Some?, false, false;
      history := [Paths(live, None)];
    }

    method SetPaths(live: Option<Directory>, backup: Option<Directory>)
      modifies this`paths, this`history
      ensures paths == Paths(live, backup) && history == old(history) + [paths]
    {
      paths := Paths(live, backup);
      history := history + [paths];
    }

    /** Moves the staged directory in. A failure that is not `Stranded` leaves the live
        directory as it was; a stranded one still has the original at the backup path. */
    method Install(calls: InstallCalls) returns (ok: bool)
      requires Valid() && !installed && !committed && staged.Some? && paths == Paths(original, None)
      modifies this
      ensures Valid() && !committed && hadCurrent == old(hadCurrent)
      ensures ok <==> calls.made && (hadCurrent ==> calls.movedAway) && calls.movedIn && calls.synced
      ensures ok ==> installed && paths.live == old(staged) && paths.backup == original
      ensures !calls.made || (hadCurrent && !calls.movedAway) ==> paths == Paths(original, None)
      ensures calls.made && (hadCurrent ==> calls.movedAway) && !calls.movedIn ==>
        if hadCurrent && !calls.restored then paths == Paths(None, original) else paths == Paths(original, None)
      ensures calls.made && (hadCurrent ==> calls.movedAway) && calls.movedIn && !calls.synced && calls.undo.removed && (hadCurrent ==> calls.undo.renamed) ==>
        paths == Paths(original, None)
      ensures !ok && !Stranded(calls, hadCurrent) ==> !installed && paths == Paths(original, None)
      ensures !ok && Stranded(calls, hadCurrent) && original.Some? ==> paths.backup == original
      ensures !ok && Stranded(calls, hadCurrent) ==>
        paths.live == if calls.movedIn && !calls.undo.removed then calls.undo.leftover else None
    {
      if !calls.made { return false; }
      if hadCurrent {
        if !calls.movedAway { return false; }
        SetPaths(None, paths.live);
      }
      if !calls.movedIn {
        if hadCurrent && calls.restored { SetPaths(paths.backup, None); }
        return false;
      }
      SetPaths(staged, paths.backup);
      staged := None;
      installed := true;
      if !calls.synced {
        var _ := Rollback(calls.undo);
        return false;
      }
      return true;
    }

    /** Puts the original back; success means the live path equals the original again. */
    method Rollback(calls: RollbackCalls) returns (ok: bool)
      requires Valid()
      modifies this
      ensures Valid() && committed == old(committed) && hadCurrent == old(hadCurrent) && staged == old(staged)
      ensures !old(installed) || committed ==> ok && paths == old(paths) && installed == old(installed)
      ensures old(installed) && !committed ==>
        && (ok <==> calls.removed && (hadCurrent ==> calls.renamed) && calls.synced)
        && if !calls.removed || (hadCurrent && !calls.renamed) then installed && paths == Paths(if calls.removed then None else calls.leftover, original)
           else !installed && paths == Paths(original, None)
    {
      if !installed || committed { return true; }
      if !calls.removed {
        SetPaths(calls.leftover, paths.backup);
        return false;
      }
      SetPaths(None, paths.backup);
      if hadCurrent {
        if !calls.renamed { return false; }
        SetPaths(paths.backup, None);
      }
      installed := false;
      return calls.synced;
    }

    /** After this the swap cannot be rolled back; removing the backup may fail silently. */
    method Commit(removed: bool, leftover: Option<Directory>)
      requires Valid()
      modifies this
      ensures Valid() && committed && paths.live == old(paths.live)
      ensures paths.backup == if hadCurrent then (if removed then None else leftover) else old(paths.backup)
      ensures hadCurrent == old(hadCurrent) && staged == old(staged)
      ensures old(history) <= history && |history| <= |old(history)| + 1
    {
      committed := true;
      if hadCurrent { SetPaths(paths.live, if removed then None else leftover); }
    }
  }

  datatype CA = CA(cert: string, key: string)

  /** The certificate provider on a directory without a server certificate: it makes a root
      only where there is none, and issues a server certificate. `created` and `issued` are
      what it makes, if it succeeds. */
  method EnsureManaged(present: Option<CA>, created: Option<CA>, issued: Option<string>) returns (ca: Option<CA>, leaf: Option<string>)
    ensures ca == if present.Some? then present else created
    ensures leaf == if ca.Some? then issued else None
  {
    ca := present;
    if ca.None? { ca := created; }
    if ca.None? { return None, None; }
    leaf := issued;
  }

  /** Prepares the directory that will replace the live one: copies the CA and its backup
      metadata, if there are any, and lets the provider complete it. */
  method StageManagedCertificate(current: Current, copied: bool, metadataCopied: bool, created: Option<CA>, issued: Option<string>)
    returns (swap: ManagedCertificateSwap?)
    ensures swap != null ==> fresh(swap) && swap.Valid() && !swap.installed && !swap.committed && swap.staged.Some?
    ensures swap != null ==> (current.Present? && swap.original == Some(current.directory)) || (current.Missing? && swap.original == None)
    ensures swap != null ==> swap.paths == Paths(swap.original, None)
    ensures swap != null ==> Some(swap.staged.value.leaf) == issued
    ensures swap != null && current.Present? ==>
      && swap.staged.value.caCert == current.directory.caCert && swap.staged.value.caKey == current.directory.caKey
      && swap.staged.value.metadata == current.directory.metadata
    ensures swap != null && current.Missing? ==> created == Some(CA(swap.staged.value.caCert, swap.staged.value.caKey))
    ensures swap == null <==>
      current.Unsafe? || current.Unavailable? || issued.None? || (current.Missing? && created.None?)
      || (current.Present? && (!current.caLoads || !copied || (current.directory.metadata.Some? && !metadataCopied)))
  {
    var live: Option<Directory>, staged: Option<CA>, metadata: Option<string> := None, None, None;
    match current {
      case Missing =>
      case Present(directory, caLoads) =>
        if !caLoads || !copied { return null; }
        live, staged := Some(directory), Some(CA(directory.caCert, directory.caKey));
        if directory.metadata.Some? {
          if !metadataCopied { return null; }
          metadata := directory.metadata;
        }
      case _ => return null;
    }
    var ca, leaf := EnsureManaged(staged, created, issued);
    if leaf.None? { return null; }
    swap := new ManagedCertificateSwap(live, Directory(ca.value.cert, ca.value.key, metadata, leaf.value));
  }

  /** The initialization command's use of a swap: install, save the configuration, then
      commit, or roll back when the save failed.

      Success means the new directory is live with the same CA certificate and key. After
      a failure the live directory is the original again exactly when no undoing call
      failed (a failed removal leaving something else behind). At every moment before the
      commit the original is at the live or the backup path. */
  method Initialize(swap: ManagedCertificateSwap, calls: InstallCalls, saved: bool, undo: RollbackCalls, removed: bool, leftover: Option<Directory>) returns (ok: bool)
    requires swap.Valid() && !swap.installed && !swap.committed && swap.staged.Some? && swap.paths == Paths(swap.original, None)
    modifies swap
    ensures swap.Valid()
    ensures ok <==> calls.made && (swap.original.Some? ==> calls.movedAway) && calls.movedIn && calls.synced && saved
    ensures ok ==> swap.paths.live == old(swap.staged)
    ensures ok && swap.original.Some? ==>
      swap.paths.live.value.caCert == swap.original.value.caCert && swap.paths.live.value.caKey == swap.original.value.caKey
    ensures !ok && calls.undo.leftover != swap.original && undo.leftover != swap.original ==>
      (swap.paths.live == swap.original <==>
         var had := swap.original.Some?;
         var movedIn := calls.made && (had ==> calls.movedAway) && calls.movedIn;
         && !(had && calls.made && calls.movedAway && !calls.movedIn && !calls.restored)
         && (movedIn && !calls.synced ==> calls.undo.removed && (had ==> calls.undo.renamed))
         && (movedIn && calls.synced ==> undo.removed && (had ==> undo.renamed)))
    ensures forall i :: 0 <= i < |swap.history| - (if ok then 1 else 0) ==> swap.Intact(swap.history[i])
  {
    ok := swap.Install(calls);
    if !ok { return; }
    if !saved {
      var _ := swap.Rollback(undo);
      return false;
    }
    ghost var uncommitted := swap.history;
    swap.Commit(removed, leftover);
    assert forall i :: 0 <= i < |uncommitted| ==> swap.history[i] == uncommitted[i];
  }
}
