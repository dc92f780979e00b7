/** One launch of the credential migration, with faults at every store access. */
module Migration {
  import opened Common
  import opened MigrationProtocol

  datatype SecretError = NotFound | AlreadyExists | Locked | Denied | Unavailable | OtherError
  datatype Result<T> = Ok(value: T) | Err(error: SecretError)

  datatype Reason =
    | SourceInUse
    | TargetInUse
    | MissingSource
    | Collision
    | CleanupRequired
    | StoreLocked
    | StoreDenied
    | StoreUnavailable
    | MigrationFailed

  datatype Status = Ready | Pending(reason: Reason)

  function Classified(error: SecretError): Status {
    match error
    case Locked => Pending(StoreLocked)
    case Denied => Pending(StoreDenied)
    case Unavailable => Pending(StoreUnavailable)
    case _ => Pending(MigrationFailed)
  }

  /** What may go wrong at a store. */
  datatype Fault = SourceUnseen | OwnersUnseen | ConfigUnstored | Reported(error: SecretError) | NotPurged

  /** The launch that meets a fault stops there and says what it met. */
  predicate Blames(status: Status, fault: Fault) {
    && status.Pending?
    && (fault.SourceUnseen? || fault.ConfigUnstored? ==> status.reason.MigrationFailed?)
    && (fault.OwnersUnseen? ==> status.reason.SourceInUse?)
    && (fault.NotPurged? ==> status.reason.CleanupRequired?)
    && (fault == Reported(Locked) ==> status.reason.StoreLocked?)
    && (fault == Reported(Denied) ==> status.reason.StoreDenied?)
    && (fault == Reported(Unavailable) ==> status.reason.StoreUnavailable?)
    && (fault == Reported(OtherError) ==> status.reason.MigrationFailed?)
  }

  /** Nothing outside the migration stands in its way. */
  ghost predicate Migratable(setup: Setup, origin: Disk)
    requires ValidSetup(setup)
  {
    && Configured(origin.config, setup.legacy)
    && (setup.os.id in origin.config.backends ==> Configured(origin.config, setup.os))
    && !Owned(setup, origin.config, origin.source, Some(setup.legacy.id))
    && (origin.source.Present? ==> Legacy(origin.config.references, setup.legacy.id) <= origin.source.secrets.Keys)
  }

  /** The legacy file holds everything that is to be copied. */
  predicate Complete(setup: Setup, origin: Disk) {
    && Manifest(origin.config, origin.source, setup.legacy.id)
       <= if origin.source.Present? then origin.source.secrets.Keys else {}
  }

  lemma BeginApplies(setup: Setup, origin: Disk, disk: Disk, locators: seq<Locator>)
    requires Invariant(setup, origin, disk) && disk.config.migration == None
    requires Configured(disk.config, setup.legacy)
    requires setup.os.id in disk.config.backends ==> Configured(disk.config, setup.os)
    requires Distinct(locators)
    ensures Updated(disk.config, BeginMigration(Record(setup.legacy, setup.os, Copying, locators, map[]))).Some?
  {
  }

  lemma ReceiptApplies(setup: Setup, origin: Disk, disk: Disk, locator: Locator, receipt: Receipt)
    requires Invariant(setup, origin, disk) && InCopying(setup, origin, disk)
    requires locator in disk.config.migration.value.locators
    requires receipt == Started ==> locator !in disk.config.migration.value.receipts
    requires receipt == Copied ==>
               locator in disk.config.migration.value.receipts
               && disk.config.migration.value.receipts[locator] == Started
    ensures var record := disk.config.migration.value;
            Updated(disk.config, RecordCopy(locator, receipt))
            == Some(disk.config.(migration := Some(record.(receipts := record.receipts[locator := receipt]))))
  {
  }

  lemma CheckpointApplies(setup: Setup, origin: Disk, disk: Disk)
    requires Invariant(setup, origin, disk) && InCopying(setup, origin, disk)
    requires AllCopied(disk.config.migration.value)
    ensures Updated(disk.config, Checkpoint).Some?
  {
    var changed := Changed(disk.config, Checkpoint).value;
    forall reference | reference in changed.references ensures reference.backend in changed.backends {
      var i :| 0 <= i < |changed.references| && changed.references[i] == reference;
      assert disk.config.references[i] in disk.config.references;
    }
  }

  /** The source holds exactly the listed secrets. */
  predicate Covers(source: Store, locators: seq<Locator>) {
    source.Present? && SetOf(locators) == source.secrets.Keys
  }

  lemma NothingListed(locators: seq<Locator>)
    ensures SetOf(locators) == {} ==> locators == []
  {
    if locators != [] {
      var first := locators[0];
      assert first in SetOf(locators);
    }
  }

  lemma FinishApplies(setup: Setup, origin: Disk, disk: Disk)
    requires Invariant(setup, origin, disk) && disk.source == Absent
    requires disk.config.migration.Some? && disk.config.migration.value.phase == CleanupPending
    ensures Updated(disk.config, Finish) == Some(disk.config.(migration := None))
    ensures Finished(setup, origin, disk.(config := disk.config.(migration := None)))
  {
  }

  /** Outside the copying phase, progress is read off the config alone. */
  lemma PhaseOf(setup: Setup, origin: Disk, disk: Disk)
    requires Invariant(setup, origin, disk)
    ensures disk.config.migration == None && Configured(disk.config, setup.legacy) ==> Unstarted(setup, origin, disk)
    ensures disk.config.migration == None && Migratable(setup, origin) && !Configured(disk.config, setup.legacy) ==>
              Finished(setup, origin, disk)
    ensures disk.config.migration.Some? && disk.config.migration.value.phase == Copying ==>
              InCopying(setup, origin, disk)
    ensures disk.config.migration.Some? && disk.config.migration.value.phase == CleanupPending ==>
              InCleanup(setup, origin, disk)
  {
  }

  /** After the checkpoint no other backend uses the file, provided none did before. */
  lemma NotOwnedAfterCheckpoint(setup: Setup, origin: Disk, disk: Disk)
    requires ValidSetup(setup) && Repointed(setup, origin, disk)
    requires !Owned(setup, origin.config, origin.source, Some(setup.legacy.id))
    requires origin.source == Absent ==> disk.source == Absent
    ensures !Owned(setup, disk.config, disk.source, None)
  {
  }

  class Desktop {
    const setup: Setup
    var config: Config
    var source: Store
    var target: map<Locator, Secret>
    /** Whether stores may fail, and whether somebody else may add secrets to the target. */
    const faulty: bool
    const foreign: bool
    ghost const origin: Disk
    ghost var effects: seq<Effect>
    /** The faults met so far, and how often somebody else added a secret to the target. */
    ghost var faults: seq<Fault>
    ghost var additions: nat

    function Now(): Disk
      reads this
    {
      Disk(config, source, target)
    }

    /** The stores hold what the effects so far, in this launch and all earlier ones, have left. */
    ghost predicate Valid()
      reads this
    {
      Initial(setup, origin) && Legal(setup, origin, effects) && Replay(setup, origin, effects) == Now()
    }

    ghost predicate Own()
      reads this
    {
      OwnCopiesOnly(setup, origin, Now())
    }

    /** Launch again on whatever an earlier launch, finished or crashed, left behind. */
    constructor (setup: Setup, ghost origin: Disk, ghost effects: seq<Effect>, disk: Disk, faulty: bool, foreign: bool)
      requires Initial(setup, origin) && Legal(setup, origin, effects) && Replay(setup, origin, effects) == disk
      ensures Valid() && Now() == disk && this.setup == setup && this.origin == origin
      ensures this.faulty == faulty && this.foreign == foreign
    {
      this.setup, this.origin, this.effects := setup, origin, effects;
      config, source, target := disk.config, disk.source, disk.target;
      this.faulty, this.foreign := faulty, foreign;
      faults, additions := [], 0;
    }

    /** No fault was met. */
    twostate predicate Smooth()
      reads `faults
    {
      faults == old(faults)
    }

    /** One fault was met, and the status says which. */
    twostate predicate StoppedBy(new status: Status)
      reads `faults
    {
      |faults| == |old(faults)| + 1 && old(faults) <= faults && Blames(status, faults[|old(faults)|])
    }

    /** No fault was met, or one that this outcome tells; and none if the stores do not fail. */
    twostate predicate Told(new stopped: Option<Status>)
      reads `faults
    {
      (Smooth() || (stopped.Some? && StoppedBy(stopped.value))) && (!faulty ==> Smooth())
    }

    /** Nobody else added to the target. */
    twostate predicate Alone()
      reads `additions
    {
      additions == old(additions)
    }

    twostate predicate Counted()
      reads `additions
    {
      old(additions) <= additions && (!foreign ==> Alone())
    }

    lemma Kept()
      requires Valid()
      ensures Invariant(setup, origin, Now())
    {
      InvariantReplay(setup, origin, origin, effects);
    }

    ghost method Took(before: Disk, effect: Effect)
      requires Initial(setup, origin) && Legal(setup, origin, effects) && Replay(setup, origin, effects) == before
      requires Enabled(setup, before, effect) && Now() == Apply(setup, before, effect)
      modifies `effects
      ensures Valid() && effects == old(effects) + [effect]
      ensures !effect.Foreign? && OwnCopiesOnly(setup, origin, before) ==> Own()
    {
      InvariantReplay(setup, origin, origin, effects);
      if !effect.Foreign? && OwnCopiesOnly(setup, origin, before) {
        OwnCopiesStep(setup, origin, before, effect);
      }
      ReplayAppend(setup, origin, effects, effect);
      effects := effects + [effect];
    }

    /** Somebody else adds secrets to the target. */
    method Others()
      requires Valid()
      modifies `target, `effects, `additions
      ensures Valid() && TargetGrows(old(target), target) && Counted()
      ensures Alone() ==> target == old(target) && effects == old(effects)
    {
      if foreign {
        var turns: int := *;
        for turn := 0 to if turns < 0 then 0 else turns
          invariant Valid() && TargetGrows(old(target), target) && old(additions) <= additions
          invariant Alone() ==> target == old(target) && effects == old(effects)
        {
          var locator: Locator := *;
          var secret: Secret := *;
          if locator !in target {
            ghost var before := Now();
            target, additions := target[locator := secret], additions + 1;
            Took(before, Foreign(locator, secret));
          }
        }
      }
    }

    /** Store a config change. A faulty store may lose it, or store it and still report a failure. */
    method Update(change: Change) returns (ok: bool)
      requires Valid()
      requires Updated(config, change).Some? ==> Enabled(setup, Now(), Configure(change))
      modifies `config, `effects, `faults
      ensures Valid() && (old(Own()) ==> Own())
      ensures ok ==> Updated(old(config), change) == Some(config) && Smooth()
      ensures !ok ==> if Updated(old(config), change) == None then config == old(config) && Smooth()
                      else faulty && faults == old(faults) + [ConfigUnstored]
    {
      var updated := Updated(config, change);
      var lost: bool, silent: bool := *, *;
      if updated == None {
        return false;
      }
      if faulty && (lost || silent) {
        faults := faults + [ConfigUnstored];
      }
      if faulty && lost {
        return false;
      }
      ghost var before := Now();
      config := updated.value;
      Took(before, Configure(change));
      ok := !faulty || !silent;
    }

    method Fail() returns (error: SecretError)
      modifies `faults
      ensures error != NotFound && error != AlreadyExists && faults == old(faults) + [Reported(error)]
    {
      error := *;
      if error == NotFound || error == AlreadyExists {
        error := OtherError;
      }
      faults := faults + [Reported(error)];
    }

    method SourceExists() returns (r: Result<bool>)
      modifies `faults
      ensures r.Ok? ==> r.value == (source != Absent) && Smooth()
      ensures r.Err? ==> faulty && faults == old(faults) + [SourceUnseen]
    {
      var fails: bool := *;
      if faulty && fails {
        faults := faults + [SourceUnseen];
        return Err(OtherError);
      }
      return Ok(source != Absent);
    }

    twostate predicate Unreadable(new error: SecretError)
      reads `faults
    {
      error != NotFound && error != AlreadyExists && faults == old(faults) + [Reported(error)]
    }

    method SourceLocators() returns (r: Result<set<Locator>>)
      modifies `faults
      ensures r.Ok? ==> source.Present? && r.value == source.secrets.Keys && Smooth()
      ensures r.Err? ==> Unreadable(r.error) && (faulty || !source.Present?)
    {
      var fails: bool := *;
      if (faulty && fails) || !source.Present? {
        var error := Fail();
        return Err(error);
      }
      r := Ok(source.secrets.Keys);
    }

    method SourceResolve(locator: Locator) returns (r: Result<Secret>)
      modifies `faults
      ensures r.Ok? ==>
                source.Present? && locator in source.secrets && r.value == source.secrets[locator] && Smooth()
      ensures r == Err(NotFound) ==> source.Present? && locator !in source.secrets && Smooth()
      ensures r.Err? && r.error != NotFound ==> Unreadable(r.error) && (faulty || !source.Present?)
    {
      var fails: bool := *;
      if (faulty && fails) || !source.Present? {
        var error := Fail();
        return Err(error);
      }
      r := if locator in source.secrets then Ok(source.secrets[locator]) else Err(NotFound);
    }

    /** The paths of the configured local-file backends, but for one. */
    method LocalPaths(except: Option<BackendId>) returns (paths: seq<Path>)
      ensures forall path :: path in paths <==>
                exists id :: id in config.backends && Some(id) != except && config.backends[id] == LocalFile(path)
    {
      paths := [];
      var left := config.backends.Keys;
      while left != {}
        invariant left <= config.backends.Keys
        invariant forall path :: path in paths <==>
                    exists id :: id in config.backends.Keys - left && Some(id) != except
                                 && config.backends[id] == LocalFile(path)
        decreases |left|
      {
        var id :| id in left;
        var settings := config.backends[id];
        if Some(id) != except && settings.LocalFile? {
          paths := paths + [settings.path];
        }
        left := left - {id};
      }
    }

    /** Whether another configured backend resolves to the legacy file; assumed if that cannot be found out. */
    method OwnsSourcePath(except: Option<BackendId>) returns (owned: bool)
      requires ValidSetup(setup)
      modifies `faults
      ensures Smooth() ==> owned == Owned(setup, config, source, except)
      ensures !Smooth() ==> faulty && owned && faults == old(faults) + [OwnersUnseen]
    {
      var fails: bool := *;
      if faulty && fails {
        faults := faults + [OwnersUnseen];
        return true;
      }
      var paths := LocalPaths(except);
      if source == Absent {
        return false;
      }
      var legacy := setup.canonical(setup.legacy.settings.path);
      for i := 0 to |paths|
        invariant forall k :: 0 <= k < i ==> setup.canonical(paths[k]) != legacy
      {
        if setup.canonical(paths[i]) == legacy {
          assert paths[i] in paths;
          return true;
        }
      }
      return false;
    }

    method TargetResolve(locator: Locator) returns (r: Result<Secret>)
      requires Valid()
      modifies `target, `effects, `faults, `additions
      ensures Valid() && TargetGrows(old(target), target) && Counted() && (Alone() ==> target == old(target))
      ensures Alone() && old(Own()) ==> Own()
      ensures r.Ok? ==> locator in target && r.value == target[locator] && Smooth()
      ensures r == Err(NotFound) ==> locator !in target && Smooth()
      ensures r.Err? && r.error != NotFound ==> faulty && Unreadable(r.error)
    {
      Others();
      var fails: bool := *;
      if faulty && fails {
        var error := Fail();
        return Err(error);
      }
      r := if locator in target then Ok(target[locator]) else Err(NotFound);
    }

    /** Add a secret to the target, never replacing one. A failure may come before or after the write. */
    method TargetPut(locator: Locator, secret: Secret) returns (r: Result<()>)
      requires Valid()
      requires source.Present? && locator in source.secrets && secret == source.secrets[locator]
      requires locator !in target ==> Enabled(setup, Now(), Put(locator))
      modifies `target, `effects, `faults, `additions
      ensures Valid() && TargetGrows(old(target), target) && Counted() && (Alone() && old(Own()) ==> Own())
      ensures r.Ok? ==> locator in target && target[locator] == secret && Smooth()
      ensures r == Err(AlreadyExists) ==> (!Alone() || locator in old(target)) && Smooth()
      ensures r.Err? && r.error != AlreadyExists ==> faulty && Unreadable(r.error)
    {
      Others();
      var lost: bool, silent: bool := *, *;
      if locator in target {
        return Err(AlreadyExists);
      }
      if !faulty || !lost {
        ghost var before := Now();
        target := target[locator := secret];
        Took(before, Put(locator));
        if !faulty || !silent {
          return Ok(());
        }
      }
      var error := Fail();
      return Err(error);
    }

    /** Zero and unlink the legacy file; a failure may leave it whole, zeroed or gone. */
    method PurgeSource() returns (ok: bool)
      requires Valid() && source != Absent
      requires Enabled(setup, Now(), Purge(Absent))
      modifies `source, `effects, `faults
      ensures Valid() && (old(Own()) ==> Own())
      ensures ok ==> source == Absent && Smooth()
      ensures !ok ==> faulty && faults == old(faults) + [NotPurged]
    {
      var fails: bool := *;
      var left: Store := *;
      if faulty && fails {
        if left == Absent || left == Zeroed {
          ghost var before := Now();
          source := left;
          Took(before, Purge(left));
        }
        faults := faults + [NotPurged];
        return false;
      }
      ghost var before := Now();
      source := Absent;
      Took(before, Purge(Absent));
      return true;
    }

    /** The manifest as a list without duplicates. */
    method Listed(locators: set<Locator>) returns (list: seq<Locator>)
      ensures SetOf(list) == locators && Distinct(list)
    {
      list := [];
      var rest := locators;
      while rest != {}
        invariant SetOf(list) + rest == locators && SetOf(list) !! rest && Distinct(list)
        decreases rest
      {
        var locator :| locator in rest;
        assert locator !in SetOf(list);
        assert SetOf(list + [locator]) == SetOf(list) + {locator};
        list, rest := list + [locator], rest - {locator};
      }
    }

    /** The target's name is taken by another backend. */
    predicate NameTaken()
      reads `config
    {
      setup.os.id in config.backends && !Configured(config, setup.os)
    }

    /** List what is to be copied, and write that down. */
    method WriteRecord(exists': bool) returns (stopped: Option<Status>)
      requires Valid() && Unstarted(setup, origin, Now()) && config.migration == None && exists' == (source != Absent)
      requires Configured(config, setup.legacy) && !NameTaken()
      requires !Owned(setup, config, source, Some(setup.legacy.id))
      modifies `config, `effects, `faults
      ensures Valid() && (old(Own()) ==> Own()) && Told(stopped)
      ensures stopped == None ==> InCopying(setup, origin, Now())
      ensures stopped != Some(Ready) && stopped != Some(Pending(Collision))
      ensures Smooth() ==> stopped == None
    {
      Kept();
      var locators: set<Locator> := {};
      if exists' {
        var stored := SourceLocators();
        if stored.Err? {
          return Some(Classified(stored.error));
        }
        locators := stored.value + Legacy(config.references, setup.legacy.id);
      }
      var list := Listed(locators);
      Kept();
      BeginApplies(setup, origin, Now(), list);
      var ok := Update(BeginMigration(Record(setup.legacy, setup.os, Copying, list, map[])));
      if !ok {
        return Some(Pending(MigrationFailed));
      }
      return None;
    }

    /**
     Write the copying record, unless something else uses the target's name or the file: then nothing
     is written, and the answer says so.
     */
    method Begin(exists': bool) returns (stopped: Option<Status>)
      requires Valid() && config.migration == None && exists' == (source != Absent)
      modifies `config, `effects, `faults
      ensures Valid() && (old(Own()) ==> Own()) && Told(stopped)
      ensures stopped == None ==> InCopying(setup, origin, Now())
      ensures stopped == Some(Ready) ==> source == Absent && config == old(config)
      ensures stopped != Some(Pending(Collision))
      ensures !Configured(old(config), setup.legacy) ==>
                && config == old(config) && effects == old(effects) && stopped.Some?
                && (!exists' ==> stopped == Some(Ready))
                && (exists' && Smooth() ==>
                      stopped == Some(Pending(if Owned(setup, config, source, None) then SourceInUse
                                              else MigrationFailed)))
      ensures Configured(old(config), setup.legacy) && old(NameTaken()) ==>
                config == old(config) && effects == old(effects) && stopped == Some(Pending(TargetInUse)) && Smooth()
      ensures Configured(old(config), setup.legacy) && Owned(setup, old(config), source, Some(setup.legacy.id)) ==>
                && config == old(config) && effects == old(effects) && stopped.Some?
                && (!old(NameTaken()) ==> stopped == Some(Pending(SourceInUse)))
      ensures Smooth() && Configured(old(config), setup.legacy) && !old(NameTaken())
              && !Owned(setup, old(config), source, Some(setup.legacy.id)) ==>
                stopped == None
    {
      Kept();
      PhaseOf(setup, origin, Now());
      if !Configured(config, setup.legacy) {
        if exists' {
          var owned := OwnsSourcePath(None);
          return Some(Pending(if owned then SourceInUse else MigrationFailed));
        }
        return Some(Ready);
      }
      if setup.os.id in config.backends && !Configured(config, setup.os) {
        return Some(Pending(TargetInUse));
      }
      var owned := OwnsSourcePath(Some(setup.legacy.id));
      if owned {
        return Some(Pending(SourceInUse));
      }
      stopped := WriteRecord(exists');
    }

    /** Remove the source behind a stored checkpoint, then drop the record. */
    method CleanUp() returns (status: Status)
      requires Valid() && InCleanup(setup, origin, Now())
      modifies `config, `source, `effects, `faults
      ensures Valid() && (old(Own()) ==> Own()) && Told(Some(status))
      ensures status == Ready ==> Finished(setup, origin, Now())
      ensures status != Pending(Collision)
      ensures Smooth() ==>
                status == if Owned(setup, old(config), old(source), None) then Pending(SourceInUse) else Ready
      ensures Owned(setup, old(config), old(source), None) ==> config == old(config) && source == old(source)
    {
      var owned := OwnsSourcePath(None);
      if owned {
        return Pending(SourceInUse);
      }
      if source != Absent {
        var purged := PurgeSource();
        if !purged {
          return Pending(CleanupRequired);
        }
      }
      status := FinishUp();
    }

    method FinishUp() returns (status: Status)
      requires Valid() && source == Absent
      requires config.migration.Some? && config.migration.value.phase == CleanupPending
      modifies `config, `effects, `faults
      ensures Valid() && (old(Own()) ==> Own()) && Told(Some(status))
      ensures status == Ready ==> Finished(setup, origin, Now())
      ensures status != Pending(Collision)
      ensures Smooth() ==> status == Ready
    {
      Kept();
      FinishApplies(setup, origin, Now());
      var finished := Update(MigrationProtocol.Finish);
      return if finished then Ready else Pending(MigrationFailed);
    }

    /** Note in the record that a secret is about to be copied, or that it was. */
    method StoreReceipt(locator: Locator, receipt: Receipt) returns (ok: bool)
      requires Valid() && InCopying(setup, origin, Now()) && locator in config.migration.value.locators
      requires receipt == Started ==> locator !in config.migration.value.receipts
      requires receipt == Copied ==>
                 && locator in config.migration.value.receipts && config.migration.value.receipts[locator] == Started
                 && source.Present? && locator in source.secrets && locator in target
                 && target[locator] == source.secrets[locator]
      modifies `config, `effects, `faults
      ensures Valid() && (old(Own()) ==> Own())
      ensures ok ==>
                && Smooth() && config.migration.Some?
                && config.migration.value == old(config.migration.value).(
                                               receipts := old(config.migration.value.receipts)[locator := receipt])
      ensures !ok ==> faulty && faults == old(faults) + [ConfigUnstored]
    {
      Kept();
      ReceiptApplies(setup, origin, Now(), locator, receipt);
      ok := Update(RecordCopy(locator, receipt));
    }

    /** The target does not hold the secret: make sure of its receipt, then write it. */
    method PutAbsent(locator: Locator, secret: Secret, receipts: map<Locator, Receipt>)
      returns (stopped: Option<Status>, receipts': map<Locator, Receipt>)
      requires Valid() && InCopying(setup, origin, Now())
      requires receipts == config.migration.value.receipts && locator in config.migration.value.locators
      requires source.Present? && locator in source.secrets && source.secrets[locator] == secret
      requires locator !in target
      modifies `config, `target, `effects, `faults, `additions
      ensures Valid() && (Alone() && old(Own()) ==> Own()) && Told(stopped) && Counted()
      ensures stopped == None ==>
                && receipts' == (if locator in receipts then receipts else receipts[locator := Started])
                && config.migration.Some?
                && config.migration.value == old(config.migration.value).(receipts := receipts')
      ensures stopped == None ==> locator in target && target[locator] == secret
      ensures stopped != Some(Ready)
      ensures Alone() ==> stopped != Some(Pending(Collision))
      ensures Smooth() && Alone() ==> stopped == None && locator in target
    {
      receipts' := receipts;
      if locator !in receipts {
        var ok := StoreReceipt(locator, Started);
        if !ok {
          return Some(Pending(MigrationFailed)), receipts';
        }
        receipts' := receipts'[locator := Started];
      }
      var put := TargetPut(locator, secret);
      if put.Err? {
        return Some(if put.error == AlreadyExists then Pending(Collision) else Classified(put.error)), receipts';
      }
      return None, receipts';
    }

    /** Put one secret into the target, behind a receipt, unless an earlier launch already did. */
    method PutOne(locator: Locator, secret: Secret, receipts: map<Locator, Receipt>)
      returns (stopped: Option<Status>, receipts': map<Locator, Receipt>)
      requires Valid() && InCopying(setup, origin, Now())
      requires receipts == config.migration.value.receipts && locator in config.migration.value.locators
      requires source.Present? && locator in source.secrets && source.secrets[locator] == secret
      modifies `config, `target, `effects, `faults, `additions
      ensures Valid() && (Alone() && old(Own()) ==> Own()) && Told(stopped) && Counted()
      ensures stopped == None ==>
                && receipts' == (if locator in receipts then receipts else receipts[locator := Started])
                && config.migration.Some?
                && config.migration.value == old(config.migration.value).(receipts := receipts')
      ensures stopped == None ==> locator in target && target[locator] == secret
      ensures stopped != Some(Ready)
      ensures locator in old(target) && (locator !in receipts || old(target)[locator] != secret) ==>
                stopped.Some? && (Smooth() ==> stopped == Some(Pending(Collision)))
      ensures locator !in target && locator in receipts && receipts[locator] == Copied ==>
                stopped.Some? && (Smooth() ==> stopped == Some(Pending(Collision)))
      ensures Alone() && old(Own()) ==> stopped != Some(Pending(Collision))
      ensures Smooth() && Alone() && old(Own()) ==> stopped == None
    {
      receipts' := receipts;
      assert locator in SetOf(config.migration.value.locators);
      var receipt := if locator in receipts then Some(receipts[locator]) else None;
      var existing := TargetResolve(locator);
      if existing.Err? && existing.error != NotFound {
        return Some(Classified(existing.error)), receipts';
      }
      if existing.Ok? {
        if receipt == None || existing.value != secret {
          return Some(Pending(Collision)), receipts';
        }
      } else {
        if receipt == Some(Copied) {
          return Some(Pending(Collision)), receipts';
        }
        stopped, receipts' := PutAbsent(locator, secret, receipts);
        return;
      }
      return None, receipts';
    }

    /** Read one secret back and, if it is the source's, upgrade its receipt. */
    method ConfirmOne(locator: Locator, secret: Secret, receipts: map<Locator, Receipt>)
      returns (stopped: Option<Status>, receipts': map<Locator, Receipt>)
      requires Valid() && InCopying(setup, origin, Now())
      requires receipts == config.migration.value.receipts && locator in receipts
               && locator in config.migration.value.locators
      requires source.Present? && locator in source.secrets && source.secrets[locator] == secret
      modifies `config, `target, `effects, `faults, `additions
      ensures Valid() && (Alone() && old(Own()) ==> Own()) && Told(stopped) && Counted()
      ensures stopped == None ==>
                && receipts' == receipts[locator := Copied]
                && config.migration.Some?
                && config.migration.value == old(config.migration.value).(receipts := receipts')
      ensures stopped != Some(Ready) && stopped != Some(Pending(Collision))
      ensures Smooth() && Alone() && old(Own()) && locator in old(target) ==> stopped == None
    {
      receipts' := receipts;
      assert locator in SetOf(config.migration.value.locators);
      var migrated := TargetResolve(locator);
      if migrated.Err? {
        return Some(Classified(migrated.error)), receipts';
      }
      if secret != migrated.value {
        return Some(Pending(MigrationFailed)), receipts';
      }
      if receipts[locator] != Copied {
        var ok := StoreReceipt(locator, Copied);
        if !ok {
          return Some(Pending(MigrationFailed)), receipts';
        }
        receipts' := receipts'[locator := Copied];
      }
      return None, receipts';
    }

    lemma StillCopying()
      requires Valid() && config.migration.Some? && config.migration.value.phase == Copying
      ensures InCopying(setup, origin, Now())
    {
      Kept();
      PhaseOf(setup, origin, Now());
    }

    /** One turn of the copying loop. */
    method CopyOne(locator: Locator, receipts: map<Locator, Receipt>)
      returns (stopped: Option<Status>, receipts': map<Locator, Receipt>)
      requires Valid() && InCopying(setup, origin, Now())
      requires receipts == config.migration.value.receipts && locator in config.migration.value.locators
      requires source.Present?
      modifies `config, `target, `effects, `faults, `additions
      ensures Valid() && (Alone() && old(Own()) ==> Own()) && Told(stopped) && Counted()
      ensures Smooth() && locator !in source.secrets ==> stopped == Some(Pending(MissingSource))
      ensures Smooth() && locator in source.secrets && locator in old(target)
              && (locator !in receipts || old(target)[locator] != source.secrets[locator]) ==>
                stopped == Some(Pending(Collision))
      ensures stopped == None ==>
                && receipts' == receipts[locator := Copied]
                && config.migration.Some?
                && config.migration.value == old(config.migration.value).(receipts := receipts')
      ensures stopped != Some(Ready)
      ensures Alone() && old(Own()) ==> stopped != Some(Pending(Collision))
      ensures Smooth() && Alone() && old(Own()) && locator in source.secrets ==> stopped == None
    {
      receipts' := receipts;
      var secret := SourceResolve(locator);
      if secret.Err? {
        return Some(if secret.error == NotFound then Pending(MissingSource) else Classified(secret.error)), receipts';
      }
      stopped, receipts' := PutOne(locator, secret.value, receipts);
      if stopped.Some? {
        return;
      }
      StillCopying();
      stopped, receipts' := ConfirmOne(locator, secret.value, receipts');
    }

    method CopyAll(locators: seq<Locator>) returns (stopped: Option<Status>)
      requires Valid() && InCopying(setup, origin, Now()) && locators == config.migration.value.locators
      requires source.Present?
      modifies `config, `target, `effects, `faults, `additions
      ensures Valid() && (Alone() && old(Own()) ==> Own()) && Told(stopped) && Counted()
      ensures stopped == None ==> InCopying(setup, origin, Now()) && AllCopied(config.migration.value)
      ensures stopped != Some(Ready)
      ensures Alone() && old(Own()) ==> stopped != Some(Pending(Collision))
      ensures Smooth() && Alone() && old(Own()) ==>
                stopped == if SetOf(locators) <= source.secrets.Keys then None else Some(Pending(MissingSource))
    {
      var receipts := config.migration.value.receipts;
      for i := 0 to |locators|
        invariant Valid() && InCopying(setup, origin, Now())
        invariant config.migration.value.locators == locators && config.migration.value.receipts == receipts
        invariant forall k :: 0 <= k < i ==> locators[k] in receipts && receipts[locators[k]] == Copied
        invariant (Alone() && old(Own()) ==> Own()) && Smooth() && Counted()
        invariant Alone() && old(Own()) ==> forall k :: 0 <= k < i ==> locators[k] in source.secrets
      {
        assert locators[i] in SetOf(locators);
        stopped, receipts := CopyOne(locators[i], receipts);
        if stopped.Some? {
          return;
        }
        StillCopying();
      }
      stopped := None;
    }

    /** The launch goes on where the record says. */
    method Resume(exists': bool) returns (status: Status)
      requires Valid() && config.migration.Some? && exists' == (source != Absent)
      modifies this
      ensures Valid() && (Alone() && old(Own()) ==> Own()) && Told(Some(status)) && Counted()
      ensures status == Ready ==> Finished(setup, origin, Now())
      ensures Alone() && old(Own()) ==> status != Pending(Collision)
      ensures Smooth() && Alone() && old(Own()) ==>
                status == if Complete(setup, origin) || old(config.migration.value.phase.CleanupPending?) then Ready
                          else Pending(MissingSource)
    {
      Kept();
      PhaseOf(setup, origin, Now());
      var record := config.migration.value;
      if record.phase == CleanupPending {
        NotOwned();
        status := CleanUp();
        return;
      }
      if !exists' {
        NothingListed(record.locators);
        if record.locators != [] {
          return Pending(MissingSource);
        }
        var checkpointed := StoreCheckpoint();
        if !checkpointed {
          return Pending(MigrationFailed);
        }
        status := FinishUp();
        return;
      }
      status := CopyThenCleanUp(record.locators);
    }

    /** A migration has begun, or may begin. */
    predicate Underway()
      reads `config, `source
      requires ValidSetup(setup)
    {
      || config.migration.Some?
      || (Configured(config, setup.legacy) && !NameTaken() && !Owned(setup, config, source, Some(setup.legacy.id)))
    }

    /**
     One launch. It may stop anywhere with a reason to try again; if nothing fails and nobody
     interferes it ends with every secret in the target and the legacy file gone.
     */
    method Migrate() returns (status: Status)
      requires Valid()
      modifies this
      ensures Valid() && (Alone() && old(Own()) ==> Own()) && Told(Some(status)) && Counted()
      ensures status == Ready ==> config.migration == None && source == Absent
      ensures Alone() && old(Own()) ==> status != Pending(Collision)
      ensures Smooth() && Alone() && old(Own()) && old(Underway()) ==>
                if Complete(setup, origin)
                  || old(config.migration.Some? && config.migration.value.phase.CleanupPending?)
                then status == Ready && Finished(setup, origin, Now()) else status == Pending(MissingSource)
      ensures Smooth() && Alone() && old(Own()) && Migratable(setup, origin) ==>
                status == Ready && Finished(setup, origin, Now())
      ensures old(config).migration == None && !Configured(old(config), setup.legacy) ==>
                && Now() == old(Now()) && effects == old(effects)
                && (Smooth() ==> status == if source == Absent then Ready
                                          else if Owned(setup, config, source, None) then Pending(SourceInUse)
                                          else Pending(MigrationFailed))
      ensures old(config).migration == None && Configured(old(config), setup.legacy) && old(NameTaken()) ==>
                Now() == old(Now()) && effects == old(effects) && (Smooth() ==> status == Pending(TargetInUse))
      ensures old(config).migration == None && Configured(old(config), setup.legacy)
              && Owned(setup, old(config), old(source), Some(setup.legacy.id)) ==>
                && Now() == old(Now()) && effects == old(effects)
                && (!faulty && !old(NameTaken()) ==> status == Pending(SourceInUse))
    {
      Kept();
      var seen := SourceExists();
      if seen.Err? {
        return Pending(MigrationFailed);
      }
      var exists' := seen.value;
      PhaseOf(setup, origin, Now());
      if config.migration == None {
        var stopped := Begin(exists');
        if stopped.Some? {
          return stopped.value;
        }
      }
      status := Resume(exists');
    }

    method StoreCheckpoint() returns (ok: bool)
      requires Valid() && InCopying(setup, origin, Now()) && AllCopied(config.migration.value)
      modifies `config, `effects, `faults
      ensures Valid() && (old(Own()) ==> Own())
      ensures ok ==> InCleanup(setup, origin, Now()) && Smooth()
      ensures !ok ==> faulty && faults == old(faults) + [ConfigUnstored]
    {
      Kept();
      CheckpointApplies(setup, origin, Now());
      ok := Update(MigrationProtocol.Checkpoint);
      if ok {
        Kept();
        PhaseOf(setup, origin, Now());
      }
    }

    method CopyThenCleanUp(locators: seq<Locator>) returns (status: Status)
      requires Valid() && InCopying(setup, origin, Now()) && locators == config.migration.value.locators
      requires source.Present?
      modifies this
      ensures Valid() && (Alone() && old(Own()) ==> Own()) && Told(Some(status)) && Counted()
      ensures status == Ready ==> Finished(setup, origin, Now())
      ensures Alone() && old(Own()) ==> status != Pending(Collision)
      ensures Smooth() && Alone() && old(Own()) ==>
                status == if SetOf(locators) <= old(source).secrets.Keys then Ready else Pending(MissingSource)
    {
      var stored := SourceLocators();
      if stored.Err? {
        return Classified(stored.error);
      }
      assert forall locator <- stored.value :: locator in SetOf(locators);
      if exists locator :: locator in stored.value && locator !in locators {
        return Pending(MigrationFailed);
      }
      var stopped := CopyAll(locators);
      if stopped.Some? {
        return stopped.value;
      }
      status := CheckpointThenCleanUp();
    }

    method CheckpointThenCleanUp() returns (status: Status)
      requires Valid() && InCopying(setup, origin, Now()) && AllCopied(config.migration.value)
      modifies `config, `source, `effects, `faults
      ensures Valid() && (old(Own()) ==> Own()) && Told(Some(status))
      ensures status == Ready ==> Finished(setup, origin, Now())
      ensures status != Pending(Collision)
      ensures Smooth() ==> status == Ready
    {
      var checkpointed := StoreCheckpoint();
      if !checkpointed {
        return Pending(MigrationFailed);
      }
      NotOwned();
      status := CleanUp();
    }

    lemma NotOwned()
      requires Valid() && InCleanup(setup, origin, Now())
      ensures !Owned(setup, config, source, None)
    {
      Kept();
      NotOwnedAfterCheckpoint(setup, origin, Now());
    }
  }
}
