/**
 The credential migration as a state machine over what survives a crash: the validated config, the
 legacy plaintext store and the target store. Each durable effect of a launch is one step, so a
 crash between any two of them leaves the state after a prefix of the steps, and a relaunch goes
 on from there.
 */
module MigrationProtocol {
  import opened Common
  import Runs

  type Locator = string
  type Secret = string
  type BackendId = string
  type Path = string

  datatype Settings = LocalFile(path: Path) | LocalOs | OnePassword
  datatype Backend = Backend(id: BackendId, settings: Settings)

  datatype Phase = Copying | CleanupPending
  /** A receipt is written before the copy and upgraded once the copy was read back. */
  datatype Receipt = Started | Copied

  datatype Record = Record(
    source: Backend,
    target: Backend,
    phase: Phase,
    locators: seq<Locator>,
    receipts: map<Locator, Receipt>)

  /** A connection's credential binding to a stored secret. */
  datatype Reference = Reference(backend: BackendId, locator: Locator)

  datatype Config = Config(
    backends: map<BackendId, Settings>,
    references: seq<Reference>,
    migration: Option<Record>)

  /** A purge zeroes the file before it unlinks it, so a failed purge may leave zeroes behind. */
  datatype Store = Absent | Zeroed | Present(secrets: map<Locator, Secret>)

  datatype Disk = Disk(config: Config, source: Store, target: map<Locator, Secret>)

  /** The legacy backend, whose path is the migrated file, the backend that replaces it, and what paths resolve to. */
  datatype Setup = Setup(legacy: Backend, os: Backend, canonical: Path -> Path)

  predicate ValidSetup(setup: Setup) {
    setup.legacy.settings.LocalFile? && setup.os.settings == LocalOs && setup.legacy.id != setup.os.id
  }

  // ----- Configuration changes -----

  predicate Configured(config: Config, backend: Backend) {
    backend.id in config.backends && config.backends[backend.id] == backend.settings
  }

  predicate AllCopied(record: Record) {
    forall locator <- record.locators :: locator in record.receipts && record.receipts[locator] == Copied
  }

  predicate Distinct(locators: seq<Locator>) {
    forall i, j :: 0 <= i < j < |locators| ==> locators[i] != locators[j]
  }

  /** The rules a stored migration record obeys. */
  predicate ValidMigration(config: Config, record: Record) {
    && record.source.settings.LocalFile? && record.target.settings == LocalOs
    && record.source.id != record.target.id
    && Distinct(record.locators)
    && (forall locator <- record.receipts :: locator in record.locators)
    && (record.target.id in config.backends ==> Configured(config, record.target))
    && (record.phase == Copying ==> Configured(config, record.source))
    && (record.phase == CleanupPending ==>
          !Configured(config, record.source) && Configured(config, record.target) && AllCopied(record))
  }

  predicate ValidConfig(config: Config) {
    && (forall reference <- config.references :: reference.backend in config.backends)
    && (forall a, b :: a in config.backends && b in config.backends && a != b && config.backends[a].LocalFile? ==>
          config.backends[a] != config.backends[b])
    && (config.migration.Some? ==> ValidMigration(config, config.migration.value))
  }

  datatype Change =
    | BeginMigration(record: Record)
    | RecordCopy(locator: Locator, receipt: Receipt)
    | Checkpoint
    | Finish

  function Rewired(references: seq<Reference>, from: BackendId, to: BackendId): (rewired: seq<Reference>)
    ensures |rewired| == |references|
  {
    seq(|references|, i requires 0 <= i < |references| =>
      if references[i].backend == from then Reference(to, references[i].locator) else references[i])
  }

  function Changed(config: Config, change: Change): Option<Config> {
    match change
    case BeginMigration(record) =>
      if config.migration.Some? || record.phase != Copying || record.receipts != map[] then None
      else Some(config.(migration := Some(record)))
    case RecordCopy(locator, receipt) =>
      if config.migration == None then None
      else
        var record := config.migration.value;
        if record.phase != Copying || locator !in record.locators then None
        else if receipt == Started && locator in record.receipts then None
        else if receipt == Copied && !(locator in record.receipts && record.receipts[locator] == Started) then None
        else Some(config.(migration := Some(record.(receipts := record.receipts[locator := receipt]))))
    case Checkpoint =>
      if config.migration == None then None
      else
        var record := config.migration.value;
        if record.phase != Copying || !AllCopied(record) then None
        else Some(Config(
          Without(config.backends, record.source.id)[record.target.id := record.target.settings],
          Rewired(config.references, record.source.id, record.target.id),
          Some(record.(phase := CleanupPending))))
    case Finish =>
      if config.migration == None || config.migration.value.phase != CleanupPending then None
      else Some(config.(migration := None))
  }

  /** A change is stored only if it applies and leaves a valid config. */
  function Updated(config: Config, change: Change): Option<Config> {
    var changed := Changed(config, change);
    if changed.Some? && ValidConfig(changed.value) then changed else None
  }

  // ----- Durable effects -----

  predicate UsesLegacyFile(setup: Setup, settings: Settings)
    requires ValidSetup(setup)
  {
    settings.LocalFile? && setup.canonical(settings.path) == setup.canonical(setup.legacy.settings.path)
  }

  /** Some configured local-file backend, other than `except`, uses the legacy file. */
  predicate Owned(setup: Setup, config: Config, source: Store, except: Option<BackendId>)
    requires ValidSetup(setup)
  {
    source != Absent
    && exists id :: id in config.backends && Some(id) != except && UsesLegacyFile(setup, config.backends[id])
  }

  datatype Effect =
    | Foreign(locator: Locator, secret: Secret)
    | Configure(change: Change)
    | Put(locator: Locator)
    | Purge(left: Store)

  function Legacy(references: seq<Reference>, id: BackendId): set<Locator> {
    set reference | reference in references && reference.backend == id :: reference.locator
  }

  /** What a migration must copy: everything stored and everything referenced. */
  function Manifest(config: Config, source: Store, legacy: BackendId): set<Locator> {
    if source.Present? then source.secrets.Keys + Legacy(config.references, legacy) else {}
  }

  function SetOf(locators: seq<Locator>): set<Locator> {
    set locator | locator in locators
  }

  /** When a launch makes an effect durable. */
  predicate Enabled(setup: Setup, disk: Disk, effect: Effect)
    requires ValidSetup(setup)
  {
    var config := disk.config;
    match effect
    case Foreign(locator, _) => locator !in disk.target
    case Configure(change) =>
      && Updated(config, change).Some?
      && (match change
          case BeginMigration(record) =>
            && record.source == setup.legacy && record.target == setup.os
            && disk.source != Zeroed && !Owned(setup, config, disk.source, Some(setup.legacy.id))
            && SetOf(record.locators) == Manifest(config, disk.source, setup.legacy.id)
          case RecordCopy(locator, receipt) =>
            receipt == Copied ==>
              && disk.source.Present? && locator in disk.source.secrets && locator in disk.target
              && disk.target[locator] == disk.source.secrets[locator]
          case Checkpoint => true
          case Finish => disk.source == Absent)
    case Put(locator) =>
      && config.migration.Some? && config.migration.value.phase == Copying
      && locator in config.migration.value.receipts && locator !in disk.target
      && disk.source.Present? && locator in disk.source.secrets
    case Purge(left) =>
      && config.migration.Some? && config.migration.value.phase == CleanupPending
      && !Owned(setup, config, disk.source, None)
      && disk.source != Absent && (left == Absent || left == Zeroed)
  }

  function Apply(setup: Setup, disk: Disk, effect: Effect): Disk
    requires ValidSetup(setup) && Enabled(setup, disk, effect)
  {
    match effect
    case Foreign(locator, secret) => disk.(target := disk.target[locator := secret])
    case Configure(change) => disk.(config := Updated(disk.config, change).value)
    case Put(locator) => disk.(target := disk.target[locator := disk.source.secrets[locator]])
    case Purge(left) => disk.(source := left)
  }

  function StepOf(setup: Setup): (Disk, Effect) -> Option<Disk>
    requires ValidSetup(setup)
  {
    (disk, effect) => if Enabled(setup, disk, effect) then Some(Apply(setup, disk, effect)) else None
  }

  ghost predicate Legal(setup: Setup, disk: Disk, effects: seq<Effect>)
    requires ValidSetup(setup)
  {
    Runs.Legal(StepOf(setup), disk, effects)
  }

  ghost function Replay(setup: Setup, disk: Disk, effects: seq<Effect>): Disk
    requires ValidSetup(setup) && Legal(setup, disk, effects)
  {
    Runs.Replay(StepOf(setup), disk, effects)
  }

  /** Before the first launch that migrates. */
  predicate Initial(setup: Setup, disk: Disk) {
    ValidSetup(setup) && ValidConfig(disk.config) && disk.config.migration == None && disk.source != Zeroed
  }

  // ----- What a reader of a credential gets -----

  /** The secret behind the i-th credential binding, if it lies in one of the two stores. */
  function Resolved(setup: Setup, disk: Disk, i: nat): Option<Secret>
    requires i < |disk.config.references|
  {
    var reference := disk.config.references[i];
    if reference.backend == setup.legacy.id && Configured(disk.config, setup.legacy) then
      if disk.source.Present? && reference.locator in disk.source.secrets
      then Some(disk.source.secrets[reference.locator]) else None
    else if reference.backend == setup.os.id && Configured(disk.config, setup.os) then
      if reference.locator in disk.target then Some(disk.target[reference.locator]) else None
    else None
  }

  // ----- The invariant -----

  /** The target holds the source's value. */
  predicate CopiedOver(origin: Disk, disk: Disk, locator: Locator) {
    && origin.source.Present? && locator in origin.source.secrets && locator in disk.target
    && disk.target[locator] == origin.source.secrets[locator]
  }

  predicate Unstarted(setup: Setup, origin: Disk, disk: Disk) {
    disk.config == origin.config && disk.source == origin.source
  }

  predicate RecordOf(setup: Setup, origin: Disk, record: Record) {
    && record.source == setup.legacy && record.target == setup.os
    && SetOf(record.locators) == Manifest(origin.config, origin.source, setup.legacy.id)
  }

  predicate InCopying(setup: Setup, origin: Disk, disk: Disk) {
    && disk.config.migration.Some?
    && var record := disk.config.migration.value;
       && record.phase == Copying && RecordOf(setup, origin, record)
       && disk.config == origin.config.(migration := Some(record))
       && disk.source == origin.source
       && (forall locator <- record.receipts :: record.receipts[locator] == Copied ==>
             CopiedOver(origin, disk, locator))
  }

  /** The config after the checkpoint, apart from the migration record. */
  predicate Repointed(setup: Setup, origin: Disk, disk: Disk) {
    && Configured(origin.config, setup.legacy)
    && disk.config.backends == Without(origin.config.backends, setup.legacy.id)[setup.os.id := LocalOs]
    && disk.config.references == Rewired(origin.config.references, setup.legacy.id, setup.os.id)
    && forall locator <- Manifest(origin.config, origin.source, setup.legacy.id) :: CopiedOver(origin, disk, locator)
  }

  predicate InCleanup(setup: Setup, origin: Disk, disk: Disk) {
    && disk.config.migration.Some?
    && disk.config.migration.value.phase == CleanupPending && RecordOf(setup, origin, disk.config.migration.value)
    && Repointed(setup, origin, disk)
    && (disk.source == origin.source || disk.source == Absent || disk.source == Zeroed)
    && (origin.source == Absent ==> disk.source == Absent)
  }

  predicate Finished(setup: Setup, origin: Disk, disk: Disk) {
    disk.config.migration == None && Repointed(setup, origin, disk) && disk.source == Absent
  }

  predicate Progress(setup: Setup, origin: Disk, disk: Disk) {
    || Unstarted(setup, origin, disk)
    || InCopying(setup, origin, disk)
    || InCleanup(setup, origin, disk)
    || Finished(setup, origin, disk)
  }

  predicate TargetGrows(target: map<Locator, Secret>, target': map<Locator, Secret>) {
    forall locator <- target :: locator in target' && target'[locator] == target[locator]
  }

  predicate Invariant(setup: Setup, origin: Disk, disk: Disk) {
    && Initial(setup, origin)
    && ValidConfig(disk.config)
    && TargetGrows(origin.target, disk.target)
    && Progress(setup, origin, disk)
    && (Unstarted(setup, origin, disk) || !Owned(setup, origin.config, origin.source, Some(setup.legacy.id)))
  }

  // ----- One effect at a time -----

  lemma ProgressForeign(setup: Setup, origin: Disk, disk: Disk, effect: Effect)
    requires Invariant(setup, origin, disk) && Enabled(setup, disk, effect) && effect.Foreign?
    ensures Progress(setup, origin, Apply(setup, disk, effect))
  {
  }

  lemma ProgressPut(setup: Setup, origin: Disk, disk: Disk, effect: Effect)
    requires Invariant(setup, origin, disk) && Enabled(setup, disk, effect) && effect.Put?
    ensures Progress(setup, origin, Apply(setup, disk, effect))
  {
  }

  lemma ProgressPurge(setup: Setup, origin: Disk, disk: Disk, effect: Effect)
    requires Invariant(setup, origin, disk) && Enabled(setup, disk, effect) && effect.Purge?
    ensures Progress(setup, origin, Apply(setup, disk, effect))
  {
  }

  lemma ProgressConfigure(setup: Setup, origin: Disk, disk: Disk, effect: Effect)
    requires Invariant(setup, origin, disk) && Enabled(setup, disk, effect) && effect.Configure?
    ensures Progress(setup, origin, Apply(setup, disk, effect))
  {
    var disk' := Apply(setup, disk, effect);
    match effect.change
    case BeginMigration(record) =>
      if Unstarted(setup, origin, disk) {
        assert InCopying(setup, origin, disk');
      }
    case RecordCopy(_, _) =>
      assert InCopying(setup, origin, disk');
    case Checkpoint =>
      var record := disk.config.migration.value;
      forall locator | locator in Manifest(origin.config, origin.source, setup.legacy.id)
        ensures CopiedOver(origin, disk', locator)
      {
        assert locator in SetOf(record.locators);
      }
      assert InCleanup(setup, origin, disk');
    case Finish =>
      assert Finished(setup, origin, disk');
  }

  lemma InvariantStep(setup: Setup, origin: Disk, disk: Disk, effect: Effect)
    requires Invariant(setup, origin, disk) && Enabled(setup, disk, effect)
    ensures Invariant(setup, origin, Apply(setup, disk, effect))
  {
    match effect
    case Foreign(_, _) => ProgressForeign(setup, origin, disk, effect);
    case Configure(_) => ProgressConfigure(setup, origin, disk, effect);
    case Put(_) => ProgressPut(setup, origin, disk, effect);
    case Purge(_) => ProgressPurge(setup, origin, disk, effect);
  }

  lemma InvariantReplay(setup: Setup, origin: Disk, disk: Disk, effects: seq<Effect>)
    requires Invariant(setup, origin, disk) && Legal(setup, disk, effects)
    ensures Invariant(setup, origin, Replay(setup, disk, effects))
  {
    var step, keeps := StepOf(setup), (d: Disk) => Invariant(setup, origin, d);
    forall d: Disk, e | keeps(d) && step(d, e).Some? ensures keeps(step(d, e).value) {
      InvariantStep(setup, origin, d, e);
    }
    Runs.ReplayKeeps(step, keeps, disk, effects);
  }

  lemma ReplayAppend(setup: Setup, disk: Disk, effects: seq<Effect>, effect: Effect)
    requires ValidSetup(setup) && Legal(setup, disk, effects) && Enabled(setup, Replay(setup, disk, effects), effect)
    ensures Legal(setup, disk, effects + [effect])
    ensures Replay(setup, disk, effects + [effect]) == Apply(setup, Replay(setup, disk, effects), effect)
  {
    Runs.ReplayAppend(StepOf(setup), disk, effects, effect);
  }

  // ----- The checkpoint -----

  /**
   The checkpoint moves every binding off the legacy backend, which is gone from the config, and
   touches nothing else: the bindings keep their order and their locators, those of other backends
   are as they were, and so are the other backends.
   */
  lemma CheckpointRepoints(config: Config)
    requires Updated(config, Checkpoint).Some?
    ensures var record, after := config.migration.value, Updated(config, Checkpoint).value;
            && record.source.id !in after.backends
            && (forall reference <- after.references :: reference.backend != record.source.id)
            && |after.references| == |config.references|
            && (forall i :: 0 <= i < |config.references| ==>
                  && after.references[i].locator == config.references[i].locator
                  && after.references[i].backend ==
                     if config.references[i].backend == record.source.id then record.target.id
                     else config.references[i].backend)
            && (forall id :: id in config.backends && id != record.source.id && id != record.target.id ==>
                  id in after.backends && after.backends[id] == config.backends[id])
  {
    var record, after := config.migration.value, Updated(config, Checkpoint).value;
    forall reference | reference in after.references ensures reference.backend != record.source.id {
      var i :| 0 <= i < |after.references| && after.references[i] == reference;
    }
  }

  // ----- Safety in every state a crash can leave -----

  /**
   Crash safety. Whatever faults, crashes, relaunches and foreign writers came before, every secret
   to migrate is still in the untouched source or lies, with its original value, in the target.
   */
  lemma CrashSafe(setup: Setup, origin: Disk, effects: seq<Effect>, locator: Locator)
    requires Initial(setup, origin) && Legal(setup, origin, effects)
    requires origin.source.Present? && locator in origin.source.secrets
    ensures var disk := Replay(setup, origin, effects);
            disk.source == origin.source || CopiedOver(origin, disk, locator)
  {
    InvariantReplay(setup, origin, origin, effects);
    assert locator in Manifest(origin.config, origin.source, setup.legacy.id);
  }

  /**
   A purge is only ever enabled behind a stored checkpoint, with the whole manifest copied, no
   binding left on the legacy backend, and no configured backend on the purged file.
   */
  lemma PurgeIsLast(setup: Setup, origin: Disk, effects: seq<Effect>, left: Store)
    requires Initial(setup, origin) && Legal(setup, origin, effects)
    requires Enabled(setup, Replay(setup, origin, effects), Purge(left))
    ensures var disk := Replay(setup, origin, effects);
            && disk.config.migration.Some? && disk.config.migration.value.phase == CleanupPending
            && (forall locator <- Manifest(origin.config, origin.source, setup.legacy.id) ::
                  CopiedOver(origin, disk, locator))
            && (forall reference <- disk.config.references :: reference.backend != setup.legacy.id)
            && (forall id <- disk.config.backends :: !UsesLegacyFile(setup, disk.config.backends[id]))
  {
    InvariantReplay(setup, origin, origin, effects);
    var disk := Replay(setup, origin, effects);
    assert InCleanup(setup, origin, disk);
    forall reference | reference in disk.config.references ensures reference.backend != setup.legacy.id {
      var i :| 0 <= i < |disk.config.references| && disk.config.references[i] == reference;
    }
  }

  /** No value that was ever in the target is changed or removed. */
  lemma TargetKept(setup: Setup, disk: Disk, effects: seq<Effect>)
    requires ValidSetup(setup) && Legal(setup, disk, effects)
    ensures TargetGrows(disk.target, Replay(setup, disk, effects).target)
  {
    var step, keeps := StepOf(setup), (d: Disk) => TargetGrows(disk.target, d.target);
    forall d: Disk, e | keeps(d) && step(d, e).Some? ensures keeps(step(d, e).value) {
    }
    Runs.ReplayKeeps(step, keeps, disk, effects);
  }

  /** A credential binding that resolved before the migration resolves to the same secret in every later state. */
  lemma BindingsKeepTheirSecret(setup: Setup, origin: Disk, effects: seq<Effect>, i: nat)
    requires Initial(setup, origin) && Legal(setup, origin, effects)
    requires i < |origin.config.references| && Resolved(setup, origin, i).Some?
    ensures var disk := Replay(setup, origin, effects);
            && |disk.config.references| == |origin.config.references|
            && Resolved(setup, disk, i) == Resolved(setup, origin, i)
  {
    InvariantReplay(setup, origin, origin, effects);
    var disk := Replay(setup, origin, effects);
    var reference := origin.config.references[i];
    if Repointed(setup, origin, disk) && reference.backend == setup.legacy.id {
      assert reference.locator in Manifest(origin.config, origin.source, setup.legacy.id);
      assert CopiedOver(origin, disk, reference.locator);
    }
  }

  /** The state after part of a history. */
  lemma {:induction false} LegalPrefix(setup: Setup, disk: Disk, effects: seq<Effect>, count: nat)
    requires ValidSetup(setup) && Legal(setup, disk, effects) && count < |effects|
    ensures Legal(setup, disk, effects[..count])
    ensures Enabled(setup, Replay(setup, disk, effects[..count]), effects[count])
    decreases count
  {
    if count > 0 {
      var next := Apply(setup, disk, effects[0]);
      assert StepOf(setup)(disk, effects[0]) == Some(next);
      LegalPrefix(setup, next, effects[1..], count - 1);
      assert effects[1..][..count - 1] == effects[..count][1..];
    }
  }

  /**
   A file that another backend uses is left alone. In every history the config and the source stay
   as they were, and nothing but foreign writers ever touches the target.
   */
  lemma SharedFileUntouched(setup: Setup, origin: Disk, effects: seq<Effect>)
    requires Initial(setup, origin) && Legal(setup, origin, effects)
    requires Owned(setup, origin.config, origin.source, Some(setup.legacy.id))
    ensures Unstarted(setup, origin, Replay(setup, origin, effects))
    ensures forall effect <- effects :: effect.Foreign?
  {
    InvariantReplay(setup, origin, origin, effects);
    forall k | 0 <= k < |effects| ensures effects[k].Foreign? {
      LegalPrefix(setup, origin, effects, k);
      InvariantReplay(setup, origin, origin, effects[..k]);
      OnlyForeign(setup, origin, Replay(setup, origin, effects[..k]), effects[k]);
    }
  }

  lemma OnlyForeign(setup: Setup, origin: Disk, disk: Disk, effect: Effect)
    requires Initial(setup, origin) && Unstarted(setup, origin, disk) && Enabled(setup, disk, effect)
    requires Owned(setup, origin.config, origin.source, Some(setup.legacy.id))
    ensures effect.Foreign?
  {
  }

  // ----- The migration's own copies -----

  /** Every value the target holds for a secret to migrate is covered by a receipt, and is the source's value. */
  predicate OwnCopiesOnly(setup: Setup, origin: Disk, disk: Disk) {
    forall locator <- Manifest(origin.config, origin.source, setup.legacy.id) :: locator in disk.target ==>
      && CopiedOver(origin, disk, locator)
      && (InCopying(setup, origin, disk) ==> locator in disk.config.migration.value.receipts)
      && !Unstarted(setup, origin, disk)
  }

  lemma OwnCopiesStep(setup: Setup, origin: Disk, disk: Disk, effect: Effect)
    requires Invariant(setup, origin, disk) && Enabled(setup, disk, effect)
    requires OwnCopiesOnly(setup, origin, disk) && !effect.Foreign?
    ensures OwnCopiesOnly(setup, origin, Apply(setup, disk, effect))
  {
    InvariantStep(setup, origin, disk, effect);
    if effect.Put? {
      assert InCopying(setup, origin, disk);
    }
  }

  /**
   The write-ahead receipt: while nobody else writes to the target, every state a crash can leave
   has a receipt for each half-done copy.
   */
  lemma {:induction false} OwnCopiesKept(setup: Setup, origin: Disk, disk: Disk, effects: seq<Effect>)
    requires Invariant(setup, origin, disk) && Legal(setup, disk, effects)
    requires OwnCopiesOnly(setup, origin, disk) && forall effect <- effects :: !effect.Foreign?
    ensures OwnCopiesOnly(setup, origin, Replay(setup, disk, effects))
    decreases |effects|
  {
    if effects != [] {
      assert StepOf(setup)(disk, effects[0]) == Some(Apply(setup, disk, effects[0]));
      OwnCopiesStep(setup, origin, disk, effects[0]);
      InvariantStep(setup, origin, disk, effects[0]);
      OwnCopiesKept(setup, origin, Apply(setup, disk, effects[0]), effects[1..]);
    }
  }
}
