/**
 The local-file secret store: one map in one file, replaced atomically under a lock. A commit may
 fail before, at or after the replacement; the caller is told which of these it can rule out.
 */
module SecretStore {
  import opened Common

  type Secrets = map<string, string>

  /** What is on disk. Anything that cannot be read as this backend's store is foreign. */
  datatype Disk = Absent | Stored(secrets: Secrets) | Foreign

  function Contents(disk: Disk): Secrets {
    if disk.Stored? then disk.secrets else map[]
  }

  datatype Error = AlreadyExists | Cancelled | Denied | Failure | UncertainWrite

  datatype Result<T> = Ok(value: T) | Err(error: Error)

  datatype PutOutcome = Written | Replaced
  datatype DeleteOutcome = Deleted | NotThere

  /** Where an atomic replacement goes wrong, if it does. */
  datatype Commit = Fine | BeforeCommit | AtCommit(replaced: bool) | AfterCommit | InvalidAfterwards

  /** What one operation meets: the result of its security checks, its commits, and when it is abandoned. */
  datatype Weather = Weather(
    trusted: bool,
    abandonedEarly: bool,
    claim: Commit,
    trustedAgain: bool,
    readable: bool,
    abandonedLate: bool,
    save: Commit)

  /** Nothing goes wrong on the way in, and the caller stays. */
  predicate Calm(weather: Weather) {
    && weather.trusted && weather.trustedAgain && weather.readable && weather.claim.Fine?
    && !weather.abandonedEarly && !weather.abandonedLate
  }

  /** An outcome that says whether the map changed. */
  predicate Definite<T>(result: Result<T>) { result.Err? && !result.error.UncertainWrite? }

  /** All checks are passed, and the store is there or was created. */
  predicate Reached(disk: Disk, weather: Weather) {
    && weather.trusted && !weather.abandonedEarly && !disk.Foreign? && (disk.Stored? || weather.claim.Fine?)
    && weather.trustedAgain && weather.readable
  }

  /** A commit's failure, as it is reported: only one before the commit is known to have changed nothing. */
  predicate FailsAs(commit: Commit, error: Error) {
    if commit.BeforeCommit? then error.Failure? else !commit.Fine? && error.UncertainWrite?
  }

  /** What a put or a delete has reported. */
  datatype Report = PutDone(put: Result<PutOutcome>) | DeleteDone(delete: Result<DeleteOutcome>)

  class LocalFile {
    var disk: Disk
    ghost var reports: seq<Report>

    constructor (disk: Disk)
      ensures this.disk == disk && reports == []
    {
      this.disk, reports := disk, [];
    }

    /** One replacement. Only a failure before the commit is known to have changed nothing. */
    method WriteStore(secrets: Secrets, commit: Commit) returns (error: Option<Error>)
      modifies `disk
      ensures error.Some? ==> FailsAs(commit, error.value)
      ensures commit.AfterCommit? || commit.InvalidAfterwards? ==> disk == Stored(secrets)
      ensures disk == old(disk) || disk == Stored(secrets)
      ensures error == None ==> disk == Stored(secrets)
      ensures error.Some? ==> error == Some(UncertainWrite) || (error == Some(Failure) && disk == old(disk))
      ensures error == match commit case Fine => None case BeforeCommit => Some(Failure) case _ => Some(UncertainWrite)
    {
      match commit {
        case BeforeCommit =>
          return Some(Failure);
        case AtCommit(replaced) =>
          if replaced {
            disk := Stored(secrets);
          }
          return Some(UncertainWrite);
        case AfterCommit =>
          disk := Stored(secrets);
          return Some(UncertainWrite);
        case InvalidAfterwards =>
          disk := Stored(secrets);
          return Some(UncertainWrite);
        case Fine =>
          disk := Stored(secrets);
          return None;
      }
    }

    /** A missing store is created empty; an existing one must be this backend's own. */
    method ClaimOrValidate(commit: Commit) returns (error: Option<Error>)
      modifies `disk
      ensures error == None <==> !old(disk).Foreign? && (old(disk).Stored? || commit.Fine?)
      ensures old(disk).Foreign? ==> error == Some(Failure)
      ensures old(disk).Absent? && error.Some? ==> FailsAs(commit, error.value)
      ensures Contents(disk) == Contents(old(disk)) && (disk.Foreign? <==> old(disk).Foreign?)
      ensures error == None ==> disk.Stored?
      ensures old(disk).Stored? ==> error == None && disk == old(disk)
      ensures !old(disk).Foreign? && commit.Fine? ==> error == None
      ensures error.Some? ==> error == Some(Failure) || error == Some(UncertainWrite)
    {
      if disk.Foreign? {
        return Some(Failure);
      }
      if disk.Stored? {
        return None;
      }
      error := WriteStore(map[], commit);
    }

    /** The way to the store: locks, checks, and a last look at whether the caller is still there. */
    method WithStoreLock(weather: Weather) returns (error: Option<Error>)
      modifies `disk
      ensures error == None <==> Reached(old(disk), weather)
      ensures error == Some(Denied) ==> !weather.trusted || !weather.trustedAgain
      ensures !weather.trusted ==> error == Some(Denied)
      ensures Reached(old(disk), weather.(trustedAgain := true)) && !weather.trustedAgain ==> error == Some(Denied)
      ensures weather.trusted && weather.abandonedEarly ==> error == Some(Cancelled)
      ensures error == Some(UncertainWrite) ==> old(disk).Absent? && FailsAs(weather.claim, UncertainWrite)
      ensures Contents(disk) == Contents(old(disk)) && (disk.Foreign? <==> old(disk).Foreign?)
      ensures error == None ==> disk.Stored? && disk.secrets == Contents(old(disk))
      ensures weather.abandonedEarly ==> disk == old(disk) && (error == Some(Denied) || error == Some(Cancelled))
      ensures Calm(weather) && !old(disk).Foreign? ==> error == None
      ensures error != Some(AlreadyExists) && (error == Some(Cancelled) ==> weather.abandonedEarly)
    {
      if !weather.trusted {
        return Some(Denied);
      }
      if weather.abandonedEarly {
        return Some(Cancelled);
      }
      error := ClaimOrValidate(weather.claim);
      if error.Some? {
        return;
      }
      if !weather.trustedAgain {
        return Some(Denied);
      }
      if !weather.readable {
        return Some(Failure);
      }
    }

    /**
     Put. Success is exactly the update of one key; an existing key is replaced only if asked for; any
     error but an uncertain write leaves the stored map as it was, and an uncertain write leaves it
     as it was or updated.
     */
    method Put(locator: string, value: string, overwrite: bool, weather: Weather) returns (result: Result<PutOutcome>)
      modifies this
      ensures reports == old(reports) + [PutDone(result)]
      ensures Reached(old(disk), weather) ==>
                var taken := locator in Contents(old(disk)) && !overwrite;
                && (result.Ok? <==> !taken && !weather.abandonedLate && weather.save.Fine?)
                && (result == Err(AlreadyExists) <==> taken)
                && (result == Err(Cancelled) <==> !taken && weather.abandonedLate)
                && (!taken && !weather.abandonedLate && result.Err? ==> FailsAs(weather.save, result.error))
      ensures result.Ok? ==> Contents(disk) == Contents(old(disk))[locator := value]
      ensures result.Ok? ==>
                (result.value.Replaced? <==> locator in Contents(old(disk))) && (result.value.Replaced? ==> overwrite)
      ensures Definite(result) ==> Contents(disk) == Contents(old(disk))
      ensures Contents(disk) == Contents(old(disk)) || Contents(disk) == Contents(old(disk))[locator := value]
      ensures Contents(disk) != Contents(old(disk)) ==> locator in Contents(old(disk)) ==> overwrite
      ensures weather.abandonedEarly || weather.abandonedLate ==> !result.Ok? && Contents(disk) == Contents(old(disk))
      ensures result == Err(AlreadyExists) ==> locator in Contents(old(disk)) && !overwrite
      ensures Calm(weather) && !old(disk).Foreign? ==>
                && (result == Err(AlreadyExists) <==> locator in Contents(old(disk)) && !overwrite)
                && (result.Ok? <==> (locator in Contents(old(disk)) ==> overwrite) && weather.save.Fine?)
      ensures old(disk).Foreign? ==> result.Err? && disk == old(disk)
    {
      var error := WithStoreLock(weather);
      if error.Some? {
        result := Err(error.value);
      } else if locator in disk.secrets && !overwrite {
        result := Err(AlreadyExists);
      } else if weather.abandonedLate {
        result := Err(Cancelled);
      } else {
        var existed := locator in disk.secrets;
        error := WriteStore(disk.secrets[locator := value], weather.save);
        result := if error.Some? then Err(error.value) else Ok(if existed then Replaced else Written);
      }
      reports := reports + [PutDone(result)];
    }

    /** Delete. Success removes exactly that key, or finds that it is not there and changes nothing. */
    method Delete(locator: string, weather: Weather) returns (result: Result<DeleteOutcome>)
      modifies this
      ensures reports == old(reports) + [DeleteDone(result)]
      ensures Reached(old(disk), weather) ==>
                var there := locator in Contents(old(disk));
                && (result.Ok? <==> (there ==> !weather.abandonedLate && weather.save.Fine?))
                && (result == Err(Cancelled) <==> there && weather.abandonedLate)
                && (there && !weather.abandonedLate && result.Err? ==> FailsAs(weather.save, result.error))
      ensures result.Ok? ==> Contents(disk) == Without(Contents(old(disk)), locator)
      ensures result.Ok? ==> (result.value.Deleted? <==> locator in Contents(old(disk)))
      ensures Definite(result) ==> Contents(disk) == Contents(old(disk))
      ensures Contents(disk) == Contents(old(disk)) || Contents(disk) == Without(Contents(old(disk)), locator)
      ensures locator in Contents(old(disk)) && (weather.abandonedEarly || weather.abandonedLate) ==>
                !result.Ok? && Contents(disk) == Contents(old(disk))
      ensures Calm(weather) && !old(disk).Foreign? ==>
                (result.Ok? <==> (locator in Contents(old(disk)) ==> weather.save.Fine?))
      ensures old(disk).Foreign? ==> result.Err? && disk == old(disk)
    {
      var error := WithStoreLock(weather);
      if error.Some? {
        result := Err(error.value);
      } else if locator !in disk.secrets {
        assert Without(Contents(disk), locator) == Contents(disk);
        result := Ok(NotThere);
      } else if weather.abandonedLate {
        result := Err(Cancelled);
      } else {
        error := WriteStore(Without(disk.secrets, locator), weather.save);
        result := if error.Some? then Err(error.value) else Ok(Deleted);
      }
      reports := reports + [DeleteDone(result)];
    }
  }
}
