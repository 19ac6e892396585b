/** The lock that keeps two runs of a playbook apart: a file on the local disk
    or a key on a Consul server, created before a run and removed after it. */
module LockFiles {
  import opened Wrappers

  /** Where locks live.  Locally: the files that exist, the lock paths whose
      directory exists, the paths whose file cannot be opened (with the error),
      and the paths whose file opens but cannot be written (with the error).  On Consul: whether the server answers, the error it
      gives when it does not, and its keys. */
  class KeyStore {
    var files: set<string>
    const parentExists: set<string>
    const openErrors: map<string, string>
    const writeErrors: map<string, string>
    const consulUp: bool
    const consulError: string
    var kv: map<string, string>

    constructor(files: set<string>, parentExists: set<string>, openErrors: map<string, string>,
                writeErrors: map<string, string>, consulUp: bool, consulError: string, kv: map<string, string>)
      ensures this.files == files && this.parentExists == parentExists && this.openErrors == openErrors
      ensures this.writeErrors == writeErrors
      ensures this.consulUp == consulUp && this.consulError == consulError && this.kv == kv
    {
      this.files := files;
      this.parentExists := parentExists;
      this.openErrors := openErrors;
      this.writeErrors := writeErrors;
      this.consulUp := consulUp;
      this.consulError := consulError;
      this.kv := kv;
    }
  }

  const ErrorAlreadyLocked := "LockFile is already locked!"
  const ErrorNoDirectory := "directory for key does not exist"

  function FoundOnStart(path: string): string {
    path + " found on start, previous run failed or is ongoing. Cannot start"
  }

  /** The error of removing a file that is not there. */
  function NoSuchFile(path: string): string {
    "remove " + path + ": no such file or directory"
  }

  class LockFile {
    const path: string
    const softLock: bool
    const consulAddress: string
    var locked: bool

    constructor(path: string, softLock: bool, consulAddress: string)
      ensures this.path == path && this.softLock == softLock && this.consulAddress == consulAddress
      ensures !locked
    {
      this.path := path;
      this.softLock := softLock;
      this.consulAddress := consulAddress;
      locked := false;
    }

    /** The lock's key is present: the file exists, or Consul returns a value
      for the key (a fetch that fails with no value counts as absent). */
    predicate LockExists(store: KeyStore)
      reads store
    {
      if consulAddress == "" then path in store.files
      else store.consulUp && path in store.kv
    }

    /** The lock is local and opening its file succeeds, creating the file. */
    predicate FileOpens(store: KeyStore)
      reads store
    {
      consulAddress == "" && path in store.parentExists && path !in store.openErrors
    }

    /** Takes the lock, writing the current time `now` under its key.  Only the
      in-memory flag is checked, not whether the key already exists.  Opening
      the local file creates it, so a write that fails afterwards leaves the
      file behind while the lock stays unlocked. */
    method Lock(store: KeyStore, now: string) returns (err: Option<string>)
      modifies this, store
      ensures old(locked) ==> err == Some(ErrorAlreadyLocked)
      ensures !old(locked) && consulAddress == "" && path !in store.parentExists ==> err == Some(ErrorNoDirectory)
      ensures !old(locked) && consulAddress == "" && path in store.parentExists && path in store.openErrors ==>
        err == Some(store.openErrors[path])
      ensures !old(locked) && FileOpens(store) && path in store.writeErrors ==> err == Some(store.writeErrors[path])
      ensures !old(locked) && consulAddress != "" && !store.consulUp ==> err == Some(store.consulError)
      ensures err.None? <==>
        !old(locked) &&
        (if consulAddress == "" then path in store.parentExists && path !in store.openErrors && path !in store.writeErrors
         else store.consulUp)
      ensures err.None? ==> locked && LockExists(store)
      ensures err.None? && consulAddress == "" ==> store.files == old(store.files) + {path} && store.kv == old(store.kv)
      ensures err.None? && consulAddress != "" ==> store.kv == old(store.kv)[path := now] && store.files == old(store.files)
      ensures err.Some? ==> locked == old(locked) && store.kv == old(store.kv)
      ensures err.Some? && !old(locked) && FileOpens(store) ==> store.files == old(store.files) + {path}
      ensures err.Some? && (old(locked) || !FileOpens(store)) ==> store.files == old(store.files)
    {
      if locked {
        return Some(ErrorAlreadyLocked);
      }
      if consulAddress == "" {
        if path !in store.parentExists {
          return Some(ErrorNoDirectory);
        }
        if path in store.openErrors {
          return Some(store.openErrors[path]);
        }
        store.files := store.files + {path};
        if path in store.writeErrors {
          return Some(store.writeErrors[path]);
        }
        locked := true;
        return None;
      } else {
        if !store.consulUp {
          return Some(store.consulError);
        }
        store.kv := store.kv[path := now];
        locked := true;
        return None;
      }
    }

    /** Releases the lock by removing its key, whatever the in-memory flag says.
      Removing a missing file fails; deleting a missing Consul key does not. */
    method Unlock(store: KeyStore) returns (err: Option<string>)
      modifies this, store
      ensures err.None? <==> (if consulAddress == "" then path in old(store.files) else store.consulUp)
      ensures consulAddress == "" && path !in old(store.files) ==> err == Some(NoSuchFile(path))
      ensures consulAddress != "" && !store.consulUp ==> err == Some(store.consulError)
      ensures err.None? ==> !locked && !LockExists(store)
      ensures err.None? && consulAddress == "" ==> store.files == old(store.files) - {path} && store.kv == old(store.kv)
      ensures err.None? && consulAddress != "" ==> store.kv == old(store.kv) - {path} && store.files == old(store.files)
      ensures err.Some? ==> locked == old(locked) && store.files == old(store.files) && store.kv == old(store.kv)
    {
      if consulAddress == "" {
        if path !in store.files {
          return Some(NoSuchFile(path));
        }
        store.files := store.files - {path};
        locked := false;
        return None;
      } else {
        if !store.consulUp {
          return Some(store.consulError);
        }
        store.kv := store.kv - {path};
        locked := false;
        return None;
      }
    }
  }

  /** A new, unlocked lock; it reports an error when its key already exists,
      since a previous run then failed or is still going. */
  method InitLockFile(path: string, softLock: bool, consulAddress: string, store: KeyStore)
    returns (lf: LockFile, err: Option<string>)
    ensures fresh(lf)
    ensures lf.path == path && lf.softLock == softLock && lf.consulAddress == consulAddress && !lf.locked
    ensures err.Some? <==> lf.LockExists(store)
    ensures err.Some? ==> err == Some(FoundOnStart(path))
  {
    lf := new LockFile(path, softLock, consulAddress);
    if lf.LockExists(store) {
      err := Some(FoundOnStart(path));
    } else {
      err := None;
    }
  }

  /** The outcomes of the local lock cycle: lock, lock again, start a second
      run, unlock, unlock again. */
  method LocalLockCycle(path: string)
    returns (init: Option<string>, lock1: Option<string>, lock2: Option<string>,
             reinit: Option<string>, unlock1: Option<string>, unlock2: Option<string>,
             existsAtEnd: bool)
    ensures init == None && lock1 == None
    ensures lock2 == Some("LockFile is already locked!")
    ensures reinit == Some(path + " found on start, previous run failed or is ongoing. Cannot start")
    ensures unlock1 == None
    ensures unlock2 == Some("remove " + path + ": no such file or directory")
    ensures !existsAtEnd
  {
    var store := new KeyStore({}, {path}, map[], map[], false, "connection refused", map[]);
    var lf;
    lf, init := InitLockFile(path, false, "", store);
    lock1 := lf.Lock(store, "2021-01-01T00:00:00+0000");
    lock2 := lf.Lock(store, "2021-01-01T00:00:01+0000");
    var other;
    other, reinit := InitLockFile(path, false, "", store);
    unlock1 := lf.Unlock(store);
    unlock2 := lf.Unlock(store);
    existsAtEnd := lf.LockExists(store);
  }

  /** The same cycle against Consul: the second unlock succeeds as well. */
  method ConsulLockCycle(path: string, address: string)
    returns (init: Option<string>, lock1: Option<string>, lock2: Option<string>,
             reinit: Option<string>, unlock1: Option<string>, unlock2: Option<string>,
             existsAtEnd: bool)
    requires address != ""
    ensures init == None && lock1 == None
    ensures lock2 == Some("LockFile is already locked!")
    ensures reinit == Some(path + " found on start, previous run failed or is ongoing. Cannot start")
    ensures unlock1 == None && unlock2 == None
    ensures !existsAtEnd
  {
    var store := new KeyStore({}, {}, map[], map[], true, "connection refused", map[]);
    var lf;
    lf, init := InitLockFile(path, false, address, store);
    lock1 := lf.Lock(store, "2021-01-01T00:00:00+0000");
    lock2 := lf.Lock(store, "2021-01-01T00:00:01+0000");
    var other;
    other, reinit := InitLockFile(path, false, address, store);
    unlock1 := lf.Unlock(store);
    unlock2 := lf.Unlock(store);
    existsAtEnd := lf.LockExists(store);
  }

  /** A local lock whose directory is missing is refused and stays unlocked. */
  method LockWithoutDirectory(path: string) returns (err: Option<string>, locked: bool)
    ensures err == Some("directory for key does not exist") && !locked
  {
    var store := new KeyStore({}, {}, map[], map[], false, "connection refused", map[]);
    var lf, _ := InitLockFile(path, false, "", store);
    err := lf.Lock(store, "2021-01-01T00:00:00+0000");
    locked := lf.locked;
  }

  /** A local lock whose file opens but cannot be written is refused and stays
      unlocked, yet the file it created makes the next run refuse to start. */
  method LockWriteFailure(path: string, writeError: string)
    returns (err: Option<string>, locked: bool, reinit: Option<string>)
    ensures err == Some(writeError) && !locked
    ensures reinit == Some(path + " found on start, previous run failed or is ongoing. Cannot start")
  {
    var store := new KeyStore({}, {path}, map[], map[path := writeError], false, "connection refused", map[]);
    var lf, _ := InitLockFile(path, false, "", store);
    err := lf.Lock(store, "2021-01-01T00:00:00+0000");
    locked := lf.locked;
    var other;
    other, reinit := InitLockFile(path, false, "", store);
  }
}
