/** The node configuration file and its backup (internal/config/store.go). */
module ConfigStore {
  import opened Prelude
  import opened NodeConfig

  type Bytes = seq<bv8>

  datatype LoadError = NotFound | Invalid | UnsupportedVersion | TooLarge | UnsafeFile | StorageFailed | Canceled

  datatype Decoded = Decoded(config: Config, migrated: bool) | Undecodable(error: LoadError)

  /** The library calls `decode` and `Save` are built from: the TOML version header, the
      version 1 migration, the schema check, the strict TOML decoder, `Validate`, and the
      TOML encoder. */
  datatype Codec = Codec(
    header: Bytes -> Option<int>, migrateV1: Bytes -> Option<Bytes>, schema: Bytes -> Option<LoadError>,
    parse: Bytes -> Option<Config>, validate: Config -> Option<LoadError>, marshal: Config -> Option<Bytes>)

  function Decode(codec: Codec, raw: Bytes): Decoded {
    var header := codec.header(raw);
    if header.None? || header.value < 1 then Undecodable(Invalid)
    else if header.value > CURRENT_VERSION then Undecodable(UnsupportedVersion)
    else
      var normalized := if header.value == 1 then codec.migrateV1(raw) else Some(raw);
      if normalized.None? then Undecodable(Invalid)
      else
        var schemaError := codec.schema(normalized.value);
        if schemaError.Some? then Undecodable(schemaError.value)
        else
          var value := codec.parse(normalized.value);
          if value.None? then Undecodable(Invalid)
          else
            var invalid := codec.validate(value.value);
            if invalid.Some? then Undecodable(invalid.value) else Decoded(value.value, header.value != CURRENT_VERSION)
  }

  /** What the encoder writes for a valid configuration decodes to it. */
  ghost predicate RoundTrips(codec: Codec) {
    forall v :: codec.validate(v).None? && codec.marshal(v).Some? ==> Decode(codec, codec.marshal(v).value) == Decoded(v, false)
  }

  /** A path as `Lstat` and `ReadFile` find it. */
  datatype File = Absent | Irregular | Unreadable | Regular(content: Bytes)
  datatype Disk = Disk(primary: File, backup: File)

  datatype LoadedFile = LoadedFile(config: Config, raw: Bytes, migrated: bool) | NotLoaded(error: LoadError)

  function LoadFile(codec: Codec, file: File): LoadedFile {
    match file
    case Absent => NotLoaded(NotFound)
    case Unreadable => NotLoaded(StorageFailed)
    case Irregular => NotLoaded(UnsafeFile)
    case Regular(raw) =>
      if |raw| > MAX_FILE_BYTES then NotLoaded(TooLarge)
      else
        match Decode(codec, raw)
        case Decoded(config, migrated) => LoadedFile(config, raw, migrated)
        case Undecodable(error) => NotLoaded(error)
  }

  /** The library calls make this configuration of the bytes; a version 1 file is migrated. */
  ghost predicate Reads(codec: Codec, raw: Bytes, config: Config, migrated: bool) {
    var header := codec.header(raw);
    && |raw| <= 1_048_576 && header.Some? && (header.value == 1 || header.value == 2) && (migrated <==> header.value == 1)
    && var text := if migrated then codec.migrateV1(raw) else Some(raw);
       text.Some? && codec.schema(text.value).None? && codec.parse(text.value) == Some(config) && codec.validate(config).None?
  }

  ghost predicate ReadsAs(codec: Codec, file: File) {
    file.Regular? && exists config, migrated :: Reads(codec, file.content, config, migrated)
  }

  /** The library calls find the bytes invalid: no usable header, or no configuration in it. */
  ghost predicate Spoilt(codec: Codec, raw: Bytes) {
    var header := codec.header(raw);
    || header.None? || header.value < 1
    || (header.value == 1 && codec.migrateV1(raw).None?)
    || (header.value <= 2
        && var text := if header.value == 1 then codec.migrateV1(raw) else Some(raw);
           text.Some? && (codec.schema(text.value) == Some(Invalid)
             || (codec.schema(text.value).None?
                 && (codec.parse(text.value).None? || codec.validate(codec.parse(text.value).value) == Some(Invalid)))))
  }

  /** The file is missing, above 1 MiB, or spoilt. */
  ghost predicate Lost(codec: Codec, file: File) {
    file.Absent? || (file.Regular? && (|file.content| > 1_048_576 || Spoilt(codec, file.content)))
  }

  ghost predicate Newer(codec: Codec, file: File) {
    file.Regular? && |file.content| <= 1_048_576 && codec.header(file.content).Some? && codec.header(file.content).value > 2
  }

  predicate Recoverable(error: LoadError) {
    error == NotFound || error == Invalid || error == TooLarge
  }

  datatype LoadResult = Loaded(config: Config, recoveredFromBackup: bool, migrated: bool) | LoadFailed(error: LoadError)

  function LoadDisk(codec: Codec, d: Disk): LoadResult {
    match LoadFile(codec, d.primary)
    case LoadedFile(config, _, migrated) => Loaded(config, false, migrated)
    case NotLoaded(error) =>
      if !Recoverable(error) then LoadFailed(error)
      else
        match LoadFile(codec, d.backup)
        case LoadedFile(config, _, migrated) => Loaded(config, true, migrated)
        case NotLoaded(backupError) => LoadFailed(if backupError == NotFound then error else backupError)
  }

  /** The encoded form `Save` writes, if it gets as far as writing. */
  function Encoded(codec: Codec, value: Config): Option<Bytes> {
    if codec.validate(value).Some? then None
    else
      var bytes := codec.marshal(value);
      if bytes.None? || |bytes.value| > MAX_FILE_BYTES then None else bytes
  }

  /** `Save` refuses a primary that failed to load for a reason it cannot recover from. */
  predicate Replaceable(codec: Codec, file: File) {
    LoadFile(codec, file).LoadedFile? || Recoverable(LoadFile(codec, file).error)
  }

  /** After the first atomic write: a loadable primary has become the backup. */
  function BackedUp(codec: Codec, d: Disk): Disk {
    if LoadFile(codec, d.primary).LoadedFile? then d.(backup := d.primary) else d
  }

  function Saved(codec: Codec, d: Disk, bytes: Bytes): Disk {
    BackedUp(codec, d).(primary := Regular(bytes))
  }

  /** The disks a stop (or a failed write) during `Save(value)` can leave behind. */
  ghost predicate StopsAt(codec: Codec, d: Disk, value: Config, after: Disk) {
    || after == d
    || (Encoded(codec, value).Some? && Replaceable(codec, d.primary)
        && (after == BackedUp(codec, d) || after == Saved(codec, d, Encoded(codec, value).value)))
  }

  /** How an atomic write ends: the rename happened or not, and the directory sync after it may fail. */
  datatype WriteOutcome = Written | WrittenUnsynced | NotWritten

  class FileStore {
    const codec: Codec
    var disk: Disk
    /** Every state of the disk so far. */
    ghost var history: seq<Disk>

    ghost predicate Valid()
      reads this
    {
      history != [] && history[|history| - 1] == disk
    }

    constructor (codec: Codec, disk: Disk)
      ensures Valid() && this.codec == codec && this.disk == disk && history == [disk]
    {
      this.codec, this.disk, history := codec, disk, [disk];
    }

    method Load() returns (result: LoadResult)
      requires Valid()
      ensures result == LoadDisk(codec, disk)
    {
      var primary := LoadFile(codec, disk.primary);
      if primary.LoadedFile? { return Loaded(primary.config, false, primary.migrated); }
      if !Recoverable(primary.error) { return LoadFailed(primary.error); }
      var backup := LoadFile(codec, disk.backup);
      if backup.LoadedFile? { return Loaded(backup.config, true, backup.migrated); }
      if backup.error == NotFound { return LoadFailed(primary.error); }
      return LoadFailed(backup.error);
    }

    method WriteBackup(raw: Bytes, outcome: WriteOutcome) returns (ok: bool)
      requires Valid()
      modifies this
      ensures Valid() && ok == outcome.Written?
      ensures disk == if outcome.NotWritten? then old(disk) else old(disk).(backup := Regular(raw))
      ensures history == if outcome.NotWritten? then old(history) else old(history) + [disk]
    {
      if !outcome.NotWritten? {
        disk := disk.(backup := Regular(raw));
        history := history + [disk];
      }
      ok := outcome.Written?;
    }

    method WritePrimary(raw: Bytes, outcome: WriteOutcome) returns (ok: bool)
      requires Valid()
      modifies this
      ensures Valid() && ok == outcome.Written?
      ensures disk == if outcome.NotWritten? then old(disk) else old(disk).(primary := Regular(raw))
      ensures history == if outcome.NotWritten? then old(history) else old(history) + [disk]
    {
      if !outcome.NotWritten? {
        disk := disk.(primary := Regular(raw));
        history := history + [disk];
      }
      ok := outcome.Written?;
    }

    /** Whatever the writes do and whenever the save stops, the disk passes only through
        the states `StopsAt` lists; success means the last of them. `parent` is what the check
        of the parent directory finds wrong. */
    method Save(value: Config, canceled: bool, parent: Option<LoadError>, first: WriteOutcome, canceledBetween: bool, second: WriteOutcome) returns (error: Option<LoadError>)
      requires Valid()
      modifies this
      ensures Valid() && old(history) <= history
      ensures forall i :: |old(history)| <= i < |history| ==> StopsAt(codec, old(disk), value, history[i])
      ensures StopsAt(codec, old(disk), value, disk)
      ensures error.None? ==> Encoded(codec, value).Some? && Replaceable(codec, old(disk).primary) && disk == Saved(codec, old(disk), Encoded(codec, value).value)
      ensures (!canceled && parent.None? && !canceledBetween && first.Written? && second.Written?
               && codec.validate(value).None? && codec.marshal(value).Some? && |codec.marshal(value).value| <= 1_048_576
               && (Lost(codec, old(disk).primary) || ReadsAs(codec, old(disk).primary)))
              ==> error.None?
      ensures error.None? ==> disk.primary.Regular? && codec.marshal(value) == Some(disk.primary.content)
      ensures error.None? ==> disk.backup == if ReadsAs(codec, old(disk).primary) then old(disk).primary else old(disk).backup
      ensures error.None? && RoundTrips(codec) ==> LoadDisk(codec, disk) == Loaded(value, false, false)
      ensures (old(disk).primary.Irregular? || old(disk).primary.Unreadable? || Newer(codec, old(disk).primary)) ==> error.Some? && history == old(history)
      ensures !Replaceable(codec, old(disk).primary) || parent.Some? ==> error.Some? && history == old(history)
    {
      ReadsExactly(codec, disk.primary);
      if Lost(codec, disk.primary) { LostIsRecoverable(codec, disk.primary); }
      if Encoded(codec, value).Some? && RoundTrips(codec) { SaveThenLoad(codec, disk, value); }
      if canceled { return Some(Canceled); }
      var invalid := codec.validate(value);
      if invalid.Some? { return invalid; }
      var bytes := codec.marshal(value);
      if bytes.None? { return Some(Invalid); }
      if |bytes.value| > MAX_FILE_BYTES { return Some(TooLarge); }
      if parent.Some? { return parent; }
      var current := LoadFile(codec, disk.primary);
      if current.LoadedFile? {
        var ok := WriteBackup(current.raw, first);
        if !ok { return Some(StorageFailed); }
      } else if !Recoverable(current.error) {
        return Some(current.error);
      }
      if canceledBetween { return Some(Canceled); }
      var ok := WritePrimary(bytes.value, second);
      if !ok { return Some(StorageFailed); }
      return None;
    }
  }

  // --- Main results ----------------------------------------------------------------------

  lemma EncodedLoads(codec: Codec, value: Config)
    requires RoundTrips(codec) && Encoded(codec, value).Some?
    ensures LoadFile(codec, Regular(Encoded(codec, value).value)) == LoadedFile(value, Encoded(codec, value).value, false)
  {
  }

  /** After a stop anywhere in a save, a store that loaded before still loads, and
      yields the old or the new configuration. */
  lemma StopKeepsOldOrNew(codec: Codec, d: Disk, value: Config, after: Disk)
    requires RoundTrips(codec) && StopsAt(codec, d, value, after) && LoadDisk(codec, d).Loaded?
    ensures LoadDisk(codec, after).Loaded?
    ensures LoadDisk(codec, after).config == LoadDisk(codec, d).config || LoadDisk(codec, after).config == value
  {
    if Encoded(codec, value).Some? { EncodedLoads(codec, value); }
  }

  /** A completed save is what the next load returns. */
  lemma SaveThenLoad(codec: Codec, d: Disk, value: Config)
    requires RoundTrips(codec) && Encoded(codec, value).Some?
    ensures LoadDisk(codec, Saved(codec, d, Encoded(codec, value).value)) == Loaded(value, false, false)
  {
    EncodedLoads(codec, value);
  }

  /** A primary that reads is what loads. */
  lemma ReadablePrimaryLoads(codec: Codec, d: Disk, config: Config, migrated: bool)
    requires d.primary.Regular? && Reads(codec, d.primary.content, config, migrated)
    ensures LoadDisk(codec, d) == Loaded(config, false, migrated)
  {
  }

  /** In place of a primary that is missing, too large or spoilt a backup that reads is
      loaded; without a backup the load fails. */
  lemma LostPrimaryLoadsBackup(codec: Codec, d: Disk, config: Config, migrated: bool)
    requires Lost(codec, d.primary)
    ensures d.backup.Regular? && Reads(codec, d.backup.content, config, migrated) ==> LoadDisk(codec, d) == Loaded(config, true, migrated)
    ensures d.backup.Absent? ==> LoadDisk(codec, d) == LoadFailed(
      if d.primary.Absent? then NotFound else if |d.primary.content| > 1_048_576 then TooLarge else Invalid)
    ensures d.backup.Irregular? ==> LoadDisk(codec, d) == LoadFailed(UnsafeFile)
    ensures d.backup.Unreadable? ==> LoadDisk(codec, d) == LoadFailed(StorageFailed)
    ensures Newer(codec, d.backup) ==> LoadDisk(codec, d) == LoadFailed(UnsupportedVersion)
  {
  }

  /** Every other primary fails with its own error, whatever the backup is. */
  lemma UnsafePrimaryFails(codec: Codec, d: Disk)
    ensures d.primary.Irregular? ==> LoadDisk(codec, d) == LoadFailed(UnsafeFile)
    ensures d.primary.Unreadable? ==> LoadDisk(codec, d) == LoadFailed(StorageFailed)
    ensures Newer(codec, d.primary) ==> LoadDisk(codec, d) == LoadFailed(UnsupportedVersion)
  {
  }

  lemma ReadsExactly(codec: Codec, file: File)
    ensures LoadFile(codec, file).LoadedFile? <==> ReadsAs(codec, file)
    ensures LoadFile(codec, file).LoadedFile? ==> LoadFile(codec, file).raw == file.content
  {
    if LoadFile(codec, file).LoadedFile? {
      assert Reads(codec, file.content, LoadFile(codec, file).config, LoadFile(codec, file).migrated);
    }
  }

  lemma LostIsRecoverable(codec: Codec, file: File)
    requires Lost(codec, file)
    ensures LoadFile(codec, file).NotLoaded? && Recoverable(LoadFile(codec, file).error)
  {
  }

  /** If the primary is lost after a completed save over a valid primary, loading returns
      the configuration that primary held before the save. */
  lemma LostPrimaryYieldsPrevious(codec: Codec, d: Disk, bytes: Bytes, lost: File)
    requires LoadFile(codec, d.primary).LoadedFile? && Lost(codec, lost)
    ensures var before := LoadFile(codec, d.primary);
      LoadDisk(codec, Saved(codec, d, bytes).(primary := lost)) == Loaded(before.config, true, before.migrated)
  {
    LostIsRecoverable(codec, lost);
  }

  /** So after two completed saves, losing the primary falls back to the first of them. */
  lemma LostPrimaryYieldsLastSaveButOne(codec: Codec, d: Disk, first: Config, second: Config, lost: File)
    requires RoundTrips(codec) && Encoded(codec, first).Some? && Encoded(codec, second).Some? && Lost(codec, lost)
    ensures var one := Saved(codec, d, Encoded(codec, first).value);
      var two := Saved(codec, one, Encoded(codec, second).value);
      LoadDisk(codec, two.(primary := lost)) == Loaded(first, true, false)
  {
    EncodedLoads(codec, first);
    LostPrimaryYieldsPrevious(codec, Saved(codec, d, Encoded(codec, first).value), Encoded(codec, second).value, lost);
  }

  /** A primary of a newer version or an unsafe type, or one that cannot be read, is never overwritten. */
  lemma UnsafePrimaryIsNeverOverwritten(codec: Codec, d: Disk, value: Config, after: Disk)
    requires StopsAt(codec, d, value, after)
    requires d.primary.Irregular? || d.primary.Unreadable? ||
      (d.primary.Regular? && |d.primary.content| <= MAX_FILE_BYTES && codec.header(d.primary.content).Some? && codec.header(d.primary.content).value > CURRENT_VERSION)
    ensures after == d
  {
  }

  /** The size bound in the lemma above is needed: an oversized primary counts as corrupt,
      whatever version its header claims, and a save replaces it. */
  lemma OversizedPrimaryIsReplaced(codec: Codec, d: Disk, value: Config)
    requires d.primary.Regular? && |d.primary.content| > MAX_FILE_BYTES && Encoded(codec, value).Some?
    ensures StopsAt(codec, d, value, d.(primary := Regular(Encoded(codec, value).value)))
  {
  }

  /** A run of saves, each stopped anywhere. */
  datatype Attempt = Attempt(value: Config, after: Disk)

  ghost predicate IsRun(codec: Codec, d: Disk, run: seq<Attempt>)
    decreases |run|
  {
    run == [] || (StopsAt(codec, d, run[0].value, run[0].after) && IsRun(codec, run[0].after, run[1..]))
  }

  function Final(d: Disk, run: seq<Attempt>): Disk {
    if run == [] then d else run[|run| - 1].after
  }

  /** Over any number of saves, each stopped or failing anywhere, a store that once loaded
      always loads, and what it loads is the first configuration or one that was saved. */
  lemma {:induction false} ConfigurationIsNeverLost(codec: Codec, d: Disk, run: seq<Attempt>)
    requires RoundTrips(codec) && IsRun(codec, d, run) && LoadDisk(codec, d).Loaded?
    ensures LoadDisk(codec, Final(d, run)).Loaded?
    ensures var config := LoadDisk(codec, Final(d, run)).config;
      config == LoadDisk(codec, d).config || exists i :: 0 <= i < |run| && run[i].value == config
    decreases |run|
  {
    if run != [] {
      StopKeepsOldOrNew(codec, d, run[0].value, run[0].after);
      ConfigurationIsNeverLost(codec, run[0].after, run[1..]);
      var config := LoadDisk(codec, Final(d, run)).config;
      assert Final(d, run) == Final(run[0].after, run[1..]);
      if config != LoadDisk(codec, run[0].after).config {
        var i :| 0 <= i < |run[1..]| && run[1..][i].value == config;
        assert run[i + 1].value == config;
      } else if config == run[0].value {
        assert run[0].value == config;
      }
    }
  }

  // --- Saves that overlap --------------------------------------------------------------------

  /** A save that has loaded the primary and is to write the backup first, or the primary. */
  datatype Saver = Backing(raw: Bytes, bytes: Bytes) | Writing(bytes: Bytes)

  datatype State = State(disk: Disk, savers: map<nat, Saver>, saved: set<Config>)

  /** The steps of any number of saves through different stores, which share no lock. A
      save that is stopped or refused takes no further step. */
  datatype Event = Begin(saver: nat, value: Config) | WriteBackupFile(saver: nat) | WritePrimaryFile(saver: nat)

  function Step(codec: Codec, s: State, e: Event): State {
    match e
    case Begin(i, value) =>
      var bytes, current := Encoded(codec, value), LoadFile(codec, s.disk.primary);
      if i in s.savers || bytes.None? || !Replaceable(codec, s.disk.primary) then s
      else
        s.(savers := s.savers[i := if current.LoadedFile? then Backing(current.raw, bytes.value) else Writing(bytes.value)], saved := s.saved + {value})
    case WriteBackupFile(i) =>
      if i !in s.savers || !s.savers[i].Backing? then s
      else s.(disk := s.disk.(backup := Regular(s.savers[i].raw)), savers := s.savers[i := Writing(s.savers[i].bytes)])
    case WritePrimaryFile(i) =>
      if i !in s.savers || !s.savers[i].Writing? then s
      else s.(disk := s.disk.(primary := Regular(s.savers[i].bytes)), savers := Without(s.savers, i))
  }

  function Overlapped(codec: Codec, s: State, es: seq<Event>): State
    decreases |es|
  {
    if es == [] then s else Overlapped(codec, Step(codec, s, es[0]), es[1..])
  }

  /** The primary loads one of the configurations `first` and `saved`. */
  ghost predicate Holds(codec: Codec, file: File, first: Config, saved: set<Config>) {
    LoadFile(codec, file).LoadedFile? && (LoadFile(codec, file).config == first || LoadFile(codec, file).config in saved)
  }

  /** What a saver will write loads as a saved configuration. Before the first write of a
      primary the disk is as it was, and only a primary that loads is backed up. */
  ghost predicate Inv(codec: Codec, start: Disk, first: Config, s: State) {
    && (Holds(codec, s.disk.primary, first, s.saved) || (s.disk == start && forall i :: i in s.savers ==> s.savers[i].Writing?))
    && (forall i :: i in s.savers ==> Holds(codec, Regular(s.savers[i].bytes), first, s.saved))
  }

  lemma StepKeepsInv(codec: Codec, start: Disk, first: Config, s: State, e: Event)
    requires RoundTrips(codec) && LoadDisk(codec, start).Loaded? && LoadDisk(codec, start).config == first && Inv(codec, start, first, s)
    ensures Inv(codec, start, first, Step(codec, s, e))
  {
    if e.Begin? && Encoded(codec, e.value).Some? { EncodedLoads(codec, e.value); }
  }

  lemma {:induction false} OverlapKeepsInv(codec: Codec, start: Disk, s: State, es: seq<Event>)
    requires RoundTrips(codec) && LoadDisk(codec, start).Loaded? && Inv(codec, start, LoadDisk(codec, start).config, s)
    ensures Inv(codec, start, LoadDisk(codec, start).config, Overlapped(codec, s, es))
    decreases |es|
  {
    if es != [] {
      StepKeepsInv(codec, start, LoadDisk(codec, start).config, s, es[0]);
      OverlapKeepsInv(codec, start, Step(codec, s, es[0]), es[1..]);
    }
  }

  /** Over every interleaving of saves, each stopped anywhere, a store that once loaded always
      loads, and what it loads is the first configuration or one that was to be saved. */
  lemma OverlappingSavesLoseNothing(codec: Codec, start: Disk, es: seq<Event>)
    requires RoundTrips(codec) && LoadDisk(codec, start).Loaded?
    ensures var t := Overlapped(codec, State(start, map[], {}), es);
      LoadDisk(codec, t.disk).Loaded? && (LoadDisk(codec, t.disk).config == LoadDisk(codec, start).config || LoadDisk(codec, t.disk).config in t.saved)
  {
    OverlapKeepsInv(codec, start, State(start, map[], {}), es);
  }

  /** A save that nothing overlaps writes what `Save` writes: a primary that reads becomes the
      backup, and the new configuration the primary. */
  lemma SaveAloneComesTo(codec: Codec, s: State, saver: nat, value: Config)
    requires saver !in s.savers && codec.validate(value).None? && codec.marshal(value).Some? && |codec.marshal(value).value| <= 1_048_576
    requires Lost(codec, s.disk.primary) || ReadsAs(codec, s.disk.primary)
    ensures var t := Step(codec, Step(codec, Step(codec, s, Begin(saver, value)), WriteBackupFile(saver)), WritePrimaryFile(saver));
      && t.disk == Disk(Regular(codec.marshal(value).value), if ReadsAs(codec, s.disk.primary) then s.disk.primary else s.disk.backup)
      && t.savers == s.savers && value in t.saved
  {
    ReadsExactly(codec, s.disk.primary);
    if Lost(codec, s.disk.primary) { LostIsRecoverable(codec, s.disk.primary); }
  }
}
