/** Moving a node's identity files into a backup directory, all or nothing
    (internal/node/identity_repair.go). */
module IdentityRepair {
  import opened Prelude

  /** A cleaned path: its directory and its last element. */
  datatype Path = Path(dir: string, base: string)

  datatype Locations = Locations(root: string, config: Path, database: Path, log: Path)

  function IdentityRepairPaths(defaults: Locations, configPath: Path): Locations {
    if configPath == defaults.config then defaults
    else
      var root := configPath.dir;
      Locations(root, configPath, Path(root, "node.db"), Path(root, "node.log"))
  }

  /** The files a repair moves, in order. */
  function RepairFiles(configPath: Path, locations: Locations): seq<Path> {
    [configPath, Path(configPath.dir, configPath.base + ".bak"), locations.database, locations.log,
     Path(locations.root, "relay-ca.pem"), Path(locations.root, "identity.key")]
  }

  datatype Entry = RegularFile(content: string) | Irregular

  type Files = map<Path, Entry>

  function Target(backup: string, source: Path): Path {
    Path(backup, source.base)
  }

  /** `os.Rename` of a path that exists; it replaces whatever is at the destination. */
  function Renamed(files: Files, source: Path, target: Path): Files
    requires source in files
  {
    Without(files, source)[target := files[source]]
  }

  /** `now` is `start` with exactly the paths in `moved` relocated into the backup directory. */
  ghost predicate Relocated(start: Files, now: Files, moved: set<Path>, backup: string) {
    && (forall p :: p in moved ==> p in start)
    && (forall p :: p in moved ==> p !in now)
    && (forall p :: p in moved ==> Target(backup, p) in now && now[Target(backup, p)] == start[p])
    && (forall p :: p in start && p !in moved ==> p in now && now[p] == start[p])
    && (forall q :: q in now && q !in start ==> IsTarget(q, moved, backup))
  }

  ghost predicate IsTarget(q: Path, moved: set<Path>, backup: string) {
    exists p :: p in moved && q == Target(backup, p)
  }

  /** The backup directory was just created: nothing is in it yet. */
  ghost predicate FreshBackup(start: Files, backup: string) {
    forall p :: p in start ==> p.dir != backup
  }

  /** Different files go to different targets. */
  ghost predicate DistinctTargets(files: seq<Path>) {
    forall p, q :: p in files && q in files && p.base == q.base ==> p == q
  }

  lemma MoveRelocates(start: Files, now: Files, moved: set<Path>, backup: string, p: Path)
    requires Relocated(start, now, moved, backup) && FreshBackup(start, backup)
    requires p in now && p in start && p !in moved && forall q :: q in moved ==> q.base != p.base
    ensures Relocated(start, Renamed(now, p, Target(backup, p)), moved + {p}, backup)
  {
    var next := Renamed(now, p, Target(backup, p));
    forall q | q in next && q !in start ensures IsTarget(q, moved + {p}, backup) {
      if q != Target(backup, p) {
        assert q in now && IsTarget(q, moved, backup);
        var r :| r in moved && q == Target(backup, r);
        assert r in moved + {p};
      } else {
        assert p in moved + {p};
      }
    }
  }

  lemma UndoRelocates(start: Files, now: Files, moved: set<Path>, backup: string, p: Path)
    requires Relocated(start, now, moved, backup) && FreshBackup(start, backup)
    requires p in moved && forall q :: q in moved && q != p ==> q.base != p.base
    ensures Relocated(start, Renamed(now, Target(backup, p), p), moved - {p}, backup)
  {
    var next := Renamed(now, Target(backup, p), p);
    forall q | q in next && q !in start ensures IsTarget(q, moved - {p}, backup) {
      assert q in now && IsTarget(q, moved, backup);
      var r :| r in moved && q == Target(backup, r);
      assert r in moved - {p};
    }
  }

  lemma NothingRelocated(start: Files, now: Files, moved: set<Path>, backup: string)
    requires Relocated(start, now, moved, backup)
    ensures now == start <==> moved == {}
  {
    if moved == {} {
      assert now.Keys == start.Keys;
    } else {
      var p :| p in moved;
      assert p in start && p !in now;
    }
  }

  function Sources(moved: seq<Path>): set<Path> {
    set p | p in moved
  }

  ghost predicate NoRepeats(moved: seq<Path>) {
    forall i, j :: 0 <= i < j < |moved| ==> moved[i] != moved[j]
  }

  ghost function Existing(sources: seq<Path>, start: Files): set<Path> {
    set p | p in sources && p in start
  }

  lemma OutsideBackup(start: Files, now: Files, moved: set<Path>, backup: string, p: Path)
    requires Relocated(start, now, moved, backup) && p.dir != backup
    ensures p in now <==> p in start && p !in moved
    ensures p in now ==> now[p] == start[p]
  {
  }

  /** Those moved files whose move could not be undone. */
  function Stuck(moved: seq<Path>, failing: set<Path>): set<Path> {
    set p | p in moved && p in failing
  }

  /** What is still in the backup when the undoing loop, last first, has come to `index`. */
  ghost function Left(moved: seq<Path>, index: nat, failing: set<Path>): set<Path>
    requires index <= |moved|
  {
    set i | 0 <= i < |moved| && (i < index || moved[i] in failing) :: moved[i]
  }

  lemma LeftEnds(moved: seq<Path>, failing: set<Path>)
    ensures Left(moved, |moved|, failing) == Sources(moved) && Left(moved, 0, failing) == Stuck(moved, failing)
  {
  }

  lemma LeftShrinks(moved: seq<Path>, index: nat, failing: set<Path>)
    requires index < |moved| && DistinctTargets(moved) && NoRepeats(moved)
    ensures var p := moved[index];
      && p in Left(moved, index + 1, failing)
      && Left(moved, index, failing) == (if p in failing then Left(moved, index + 1, failing) else Left(moved, index + 1, failing) - {p})
      && forall q :: q in Left(moved, index + 1, failing) && q != p ==> q.base != p.base
  {
  }

  /** A rename back out of the backup; if it fails, nothing happens. */
  function UndoOne(files: Files, p: Path, failing: set<Path>, backup: string): Files {
    if p in failing || Target(backup, p) !in files then files else Renamed(files, Target(backup, p), p)
  }

  function UndoFrom(files: Files, moved: seq<Path>, index: nat, failing: set<Path>, backup: string): Files
    requires index <= |moved|
    decreases index
  {
    if index == 0 then files else UndoFrom(UndoOne(files, moved[index - 1], failing, backup), moved, index - 1, failing, backup)
  }

  lemma UndoOneRelocates(start: Files, now: Files, moved: seq<Path>, index: nat, failing: set<Path>, backup: string)
    requires index < |moved| && DistinctTargets(moved) && NoRepeats(moved) && FreshBackup(start, backup)
    requires Relocated(start, now, Left(moved, index + 1, failing), backup)
    ensures Relocated(start, UndoOne(now, moved[index], failing, backup), Left(moved, index, failing), backup)
  {
    var p, left := moved[index], Left(moved, index + 1, failing);
    LeftShrinks(moved, index, failing);
    if p !in failing {
      UndoRelocates(start, now, left, backup, p);
      assert Target(backup, p) in now;
    }
  }

  lemma {:induction false} UndoFromRelocates(start: Files, now: Files, moved: seq<Path>, index: nat, failing: set<Path>, backup: string)
    requires index <= |moved| && DistinctTargets(moved) && NoRepeats(moved) && FreshBackup(start, backup)
    requires Relocated(start, now, Left(moved, index, failing), backup)
    ensures Relocated(start, UndoFrom(now, moved, index, failing, backup), Left(moved, 0, failing), backup)
    decreases index
  {
    if index > 0 {
      UndoOneRelocates(start, now, moved, index - 1, failing, backup);
      UndoFromRelocates(start, UndoOne(now, moved[index - 1], failing, backup), moved, index - 1, failing, backup);
    }
  }

  /** What could be moved back is back; only the moves whose undoing failed remain. */
  lemma RollbackRestores(start: Files, now: Files, moved: seq<Path>, failing: set<Path>, backup: string)
    requires DistinctTargets(moved) && NoRepeats(moved) && FreshBackup(start, backup)
    requires Relocated(start, now, Sources(moved), backup)
    ensures var after := UndoFrom(now, moved, |moved|, failing, backup);
      && Relocated(start, after, Stuck(moved, failing), backup)
      && (after == start <==> Stuck(moved, failing) == {})
  {
    LeftEnds(moved, failing);
    UndoFromRelocates(start, now, moved, |moved|, failing, backup);
    NothingRelocated(start, UndoFrom(now, moved, |moved|, failing, backup), Stuck(moved, failing), backup);
  }

  /** How the system calls end, by source path: failing `Lstat`s (other than not-exist),
      failing renames into the backup, and failing renames back. */
  datatype Faults = Faults(stat: set<Path>, move: set<Path>, undo: set<Path>)

  /** Nothing stands in the way of moving this file, or it does not exist. */
  ghost predicate Movable(p: Path, start: Files, faults: Faults) {
    p !in faults.stat && (p in start ==> start[p].RegularFile? && p !in faults.move)
  }

  ghost predicate AllMovable(sources: seq<Path>, start: Files, faults: Faults) {
    forall p :: p in sources ==> Movable(p, start, faults)
  }

  /** The sources in `done` have been dealt with: those that existed are in the backup. */
  ghost predicate Progress(start: Files, now: Files, done: seq<Path>, moved: seq<Path>, backup: string, faults: Faults) {
    && NoRepeats(moved) && Sources(moved) == Existing(done, start)
    && Relocated(start, now, Sources(moved), backup) && AllMovable(done, start, faults)
  }

  lemma InDone(moved: seq<Path>, done: seq<Path>, start: Files, source: Path, faults: Faults)
    requires Sources(moved) == Existing(done, start) && AllMovable(done, start, faults) && DistinctTargets(done + [source])
    ensures forall p :: p in Sources(moved) && p.base == source.base ==> p == source
    ensures source in moved ==> source in start && Movable(source, start, faults)
  {
    assert source in done + [source];
    forall p | p in Sources(moved) && p.base == source.base ensures p == source { assert p in done + [source]; }
    if source in moved { assert source in Sources(moved); }
  }

  /** What the loop sees of a source tells whether it could be moved from the start; one
      that is not there is dealt with already. */
  lemma ProgressFits(start: Files, now: Files, done: seq<Path>, moved: seq<Path>, source: Path, backup: string, faults: Faults)
    requires Progress(start, now, done, moved, backup, faults) && source.dir != backup && DistinctTargets(done + [source])
    ensures Movable(source, start, faults) <==>
      source !in faults.stat && (source in now ==> now[source].RegularFile? && source !in faults.move)
    ensures source !in now && source !in faults.stat ==> Progress(start, now, done + [source], moved, backup, faults)
  {
    OutsideBackup(start, now, Sources(moved), backup, source);
    InDone(moved, done, start, source, faults);
    if source !in now { assert Existing(done + [source], start) == Existing(done, start); }
  }

  lemma MoveProgresses(start: Files, now: Files, done: seq<Path>, moved: seq<Path>, source: Path, backup: string, faults: Faults)
    requires FreshBackup(start, backup) && source.dir != backup && DistinctTargets(done + [source])
    requires Progress(start, now, done, moved, backup, faults) && source in now && Movable(source, start, faults)
    ensures Progress(start, Renamed(now, source, Target(backup, source)), done + [source], moved + [source], backup, faults)
  {
    OutsideBackup(start, now, Sources(moved), backup, source);
    InDone(moved, done, start, source, faults);
    MoveRelocates(start, now, Sources(moved), backup, source);
    MovedSets(start, done, moved, source);
    assert AllMovable(done + [source], start, faults);
  }

  lemma MovedSets(start: Files, done: seq<Path>, moved: seq<Path>, source: Path)
    requires Sources(moved) == Existing(done, start) && source in start && source !in Sources(moved) && NoRepeats(moved)
    ensures Sources(moved + [source]) == Sources(moved) + {source} == Existing(done + [source], start)
    ensures NoRepeats(moved + [source])
  {
  }

  lemma DistinctPart(sources: seq<Path>, k: nat)
    requires k < |sources| && DistinctTargets(sources)
    ensures DistinctTargets(sources[..k] + [sources[k]]) && DistinctTargets(sources[..k])
  {
  }

  lemma DistinctMoved(moved: seq<Path>, done: seq<Path>, start: Files)
    requires Sources(moved) == Existing(done, start) && DistinctTargets(done)
    ensures DistinctTargets(moved)
  {
    forall p, q | p in moved && q in moved && p.base == q.base ensures p == q {
      assert p in Sources(moved) && q in Sources(moved);
    }
  }

  class Filesystem {
    var files: Files

    constructor (files: Files)
      ensures this.files == files
    {
      this.files := files;
    }

    /** Undoes the moves, last first, ignoring errors. */
    method Rollback(moved: seq<Path>, backup: string, faults: Faults)
      modifies this
      ensures files == UndoFrom(old(files), moved, |moved|, faults.undo, backup)
    {
      var index := |moved|;
      while index > 0
        invariant 0 <= index <= |moved|
        invariant UndoFrom(files, moved, index, faults.undo, backup) == UndoFrom(old(files), moved, |moved|, faults.undo, backup)
      {
        index := index - 1;
        files := UndoOne(files, moved[index], faults.undo, backup);
      }
    }

    /** One round of the move loop: nothing happens to a file that is absent or was already
        moved, and a file that cannot be moved leaves everything as it is. */
    method MoveOne(ghost start: Files, ghost done: seq<Path>, moved: seq<Path>, source: Path, backup: string, faults: Faults) returns (ok: bool, next: seq<Path>)
      requires FreshBackup(start, backup) && source.dir != backup && DistinctTargets(done + [source])
      requires Progress(start, files, done, moved, backup, faults)
      modifies this
      ensures ok <==> source !in faults.stat && (source in start ==> start[source].RegularFile? && source !in faults.move)
      ensures Progress(start, files, if ok then done + [source] else done, next, backup, faults)
    {
      ProgressFits(start, files, done, moved, source, backup, faults);
      if source in faults.stat || (source in files && (!files[source].RegularFile? || source in faults.move)) {
        return false, moved;
      }
      if source !in files { return true, moved; }
      MoveProgresses(start, files, done, moved, source, backup, faults);
      files := Renamed(files, source, Target(backup, source));
      return true, moved + [source];
    }

    /** The move loop. Success: every listed file that existed is in the backup with its
        content, and nothing else changed. Failure: the starting files are back, except
        those whose own undoing rename failed, which are intact in the backup. */
    method PrepareRepair(sources: seq<Path>, backup: string, faults: Faults) returns (ok: bool, moved: seq<Path>)
      requires FreshBackup(files, backup) && DistinctTargets(sources) && forall p :: p in sources ==> p.dir != backup
      modifies this
      ensures ok <==> forall p :: p in sources ==> p !in faults.stat && (p in old(files) ==> old(files)[p].RegularFile? && p !in faults.move)
      ensures ok ==> Relocated(old(files), files, Existing(sources, old(files)), backup)
      ensures ok ==> forall p :: p in sources && p in old(files) ==>
        p !in files && Path(backup, p.base) in files && files[Path(backup, p.base)] == old(files)[p]
      ensures ok ==> forall p :: p in old(files) && p !in sources ==> p in files && files[p] == old(files)[p]
      ensures !ok && (forall p :: p in moved ==> p !in faults.undo) ==> files == old(files)
      ensures !ok ==> Relocated(old(files), files, Stuck(moved, faults.undo), backup)
      ensures !ok ==> (files == old(files) <==> Stuck(moved, faults.undo) == {})
    {
      ghost var start := files;
      moved := [];
      var k := 0;
      while k < |sources|
        invariant 0 <= k <= |sources|
        invariant Progress(start, files, sources[..k], moved, backup, faults)
      {
        assert sources[..k + 1] == sources[..k] + [sources[k]];
        assert sources[k] in sources;
        DistinctPart(sources, k);
        var fine: bool;
        fine, moved := MoveOne(start, sources[..k], moved, sources[k], backup, faults);
        if !fine {
          DistinctMoved(moved, sources[..k], start);
          RollbackRestores(start, files, moved, faults.undo, backup);
          Rollback(moved, backup, faults);
          return false, moved;
        }
        k := k + 1;
      }
      assert sources[..k] == sources;
      return true, moved;
    }
  }

  /** The files a repair lists never collapse onto one target: with a configuration of its
      own they share one directory, and so do the platform defaults. */
  lemma RepairTargetsAreDistinct(defaults: Locations, configPath: Path)
    requires defaults.config.dir == defaults.database.dir == defaults.log.dir == defaults.root
    ensures DistinctTargets(RepairFiles(configPath, IdentityRepairPaths(defaults, configPath)))
  {
    var files := RepairFiles(configPath, IdentityRepairPaths(defaults, configPath));
    assert forall p :: p in files ==> p.dir == configPath.dir;
  }

  /** The six files of a repair: the configuration and its backup, and beside it, or in the
      default places for the default configuration, the database, log, relay CA and key. */
  lemma RepairListsTheSixFiles(defaults: Locations, configPath: Path)
    ensures var files := RepairFiles(configPath, IdentityRepairPaths(defaults, configPath));
      var own := configPath != defaults.config;
      var root := if own then configPath.dir else defaults.root;
      && |files| == 6
      && files[0] == configPath && files[1].dir == configPath.dir && files[1].base == configPath.base + ".bak"
      && files[2] == (if own then Path(configPath.dir, "node.db") else defaults.database)
      && files[3] == (if own then Path(configPath.dir, "node.log") else defaults.log)
      && files[4] == Path(root, "relay-ca.pem") && files[5] == Path(root, "identity.key")
  {
  }
}
