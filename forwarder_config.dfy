/**
 * Configuration checks of the Fluentd event forwarder (fluentd-forward/config.go).
 *
 * `Validate` runs four checks in a fixed order and stops at the first failure:
 * the Fluentd connection settings, the Teleport connection settings, the
 * storage directory (created when it is missing), and the start time, which it
 * parses and stores in the configuration.
 *
 * The file system is a `FileSystem` object: the paths `os.Stat` finds, the
 * paths it cannot examine, and the paths under which `os.MkdirAll` fails.
 * Parsing an RFC 3339 timestamp is a function supplied by the caller.
 */
module ForwarderConfig {
  import opened Wrappers

  // ---------------------------------------------------------------------------
  // First failure of a chain of checks

  /** The first error in `checks`, as a chain of early returns yields it. */
  function FirstFailure<E>(checks: seq<Option<E>>): (r: Option<E>)
    ensures r.None? <==> forall k :: 0 <= k < |checks| ==> checks[k].None?
    ensures r.Some? ==> exists k :: 0 <= k < |checks| && checks[k] == r &&
                          forall j :: 0 <= j < k ==> checks[j].None?
    decreases |checks|
  {
    if checks == [] then None
    else if checks[0].Some? then checks[0]
    else
      var rest := FirstFailure(checks[1..]);
      assert forall k :: 1 <= k < |checks| ==> checks[k] == checks[1..][k - 1];
      rest
  }

  /** Checks that pass can be skipped: the first failure lies among the later ones. */
  lemma {:induction false} FirstFailureAfterPassing<E>(checks: seq<Option<E>>, k: nat)
    requires k <= |checks|
    requires forall j :: 0 <= j < k ==> checks[j].None?
    ensures FirstFailure(checks) == FirstFailure(checks[k..])
    decreases k
  {
    if k > 0 {
      assert checks[1..][k - 1..] == checks[k..];
      FirstFailureAfterPassing(checks[1..], k - 1);
    }
  }

  // ---------------------------------------------------------------------------
  // The file system

  /** What os.Stat reports about a path. */
  datatype StatResult = Found | NotExist | StatFailed

  class FileSystem {
    /** Paths that exist. */
    var present: set<string>
    /** Paths os.Stat cannot examine (an error other than "does not exist", such as permission denied). */
    var statFailures: set<string>
    /** Paths os.MkdirAll cannot create. */
    var unwritable: set<string>

    constructor (present: set<string>, statFailures: set<string>, unwritable: set<string>)
      ensures this.present == present && this.statFailures == statFailures
      ensures this.unwritable == unwritable
    {
      this.present := present;
      this.statFailures := statFailures;
      this.unwritable := unwritable;
    }

    /** os.Stat: found, does not exist, or some other error. */
    function Stat(path: string): (r: StatResult)
      reads this
      ensures r.Found? <==> path in present
      ensures r.StatFailed? <==> path !in present && path in statFailures
      ensures r.NotExist? <==> path !in present && path !in statFailures
    {
      if path in present then Found
      else if path in statFailures then StatFailed
      else NotExist
    }

    /** fileExists: a path counts as missing only when os.Stat says that it does not exist. */
    function FileExists(name: string): (b: bool)
      reads this
      ensures !b <==> name !in present && name !in statFailures
      ensures name in statFailures ==> b
    {
      match Stat(name)
      case NotExist => false
      case _ => true
    }

    /** os.MkdirAll(path, 0755). */
    method MkdirAll(path: string) returns (ok: bool)
      modifies this`present
      ensures ok <==> path !in unwritable
      ensures present == if ok then old(present) + {path} else old(present)
    {
      ok := path !in unwritable;
      if ok {
        present := present + {path};
      }
    }
  }

  // ---------------------------------------------------------------------------
  // Configuration

  /** time.Time as seconds and nanoseconds since January 1, year 1, UTC; the zero value is that instant. */
  datatype Time = Time(seconds: int, nanos: nat)

  const ZeroTime := Time(0, 0)

  /** Which check an error comes from. */
  datatype Section = FluentdSection | TeleportTLSSection | TeleportIdentitySection
                   | StorageSection | StartTimeSection

  /** The errors validate can return, one per early return. */
  datatype ConfigError =
    | MissingFluentdURL
    | FluentdCANotFound(path: string)
    | MissingFluentdCert
    | FluentdCertNotFound(path: string)
    | MissingFluentdKey
    | FluentdKeyNotFound(path: string)
    | MissingTeleportAddr
    | MissingTeleportCA
    | TeleportCANotFound(path: string)
    | MissingTeleportCert
    | TeleportCertNotFound(path: string)
    | MissingTeleportKey
    | TeleportKeyNotFound(path: string)
    | MissingIdentityOrCertificates
    | IdentityFileNotFound(path: string)
    | MissingStorageDir
    | MkdirFailed(path: string)
    | InvalidStartTime(raw: string)
  {
    function Section(): Section {
      if MissingFluentdURL? || FluentdCANotFound? || MissingFluentdCert? || FluentdCertNotFound?
         || MissingFluentdKey? || FluentdKeyNotFound?
      then FluentdSection
      else if MissingIdentityOrCertificates? || IdentityFileNotFound? then TeleportIdentitySection
      else if MissingStorageDir? || MkdirFailed? then StorageSection
      else if InvalidStartTime? then StartTimeSection
      else TeleportTLSSection
    }

    /** trace.BadParameter errors, as opposed to wrapped I/O and parse errors. */
    predicate IsBadParameter() {
      !MkdirFailed? && !InvalidStartTime?
    }
  }

  class Config {
    var fluentdURL: string
    var fluentdCert: string
    var fluentdKey: string
    var fluentdCA: string
    var teleportAddr: string
    var teleportIdentityFile: string
    var teleportProfileName: string
    var teleportProfileDir: string
    var teleportCA: string
    var teleportCert: string
    var teleportKey: string
    var storageDir: string
    var batchSize: int
    var namespace: string
    var types: seq<string>
    var startTimeRaw: string
    var startTime: Time
    /** Polling timeout in nanoseconds (time.Duration). */
    var timeout: int

    /** The configuration as viper.Unmarshal leaves it (StartTime not yet set). */
    constructor (fluentdURL: string, fluentdCert: string, fluentdKey: string, fluentdCA: string,
                 teleportAddr: string, teleportIdentityFile: string,
                 teleportProfileName: string, teleportProfileDir: string, teleportCA: string,
                 teleportCert: string, teleportKey: string, storageDir: string, batchSize: int,
                 namespace: string, types: seq<string>, startTimeRaw: string, timeout: int)
      ensures this.fluentdURL == fluentdURL && this.fluentdCert == fluentdCert
      ensures this.fluentdKey == fluentdKey && this.fluentdCA == fluentdCA
      ensures this.teleportAddr == teleportAddr && this.teleportIdentityFile == teleportIdentityFile
      ensures this.teleportCA == teleportCA && this.teleportCert == teleportCert
      ensures this.teleportKey == teleportKey && this.storageDir == storageDir
      ensures this.teleportProfileName == teleportProfileName
      ensures this.teleportProfileDir == teleportProfileDir
      ensures this.batchSize == batchSize && this.namespace == namespace && this.types == types
      ensures this.startTimeRaw == startTimeRaw && startTime == ZeroTime
      ensures this.timeout == timeout
    {
      this.fluentdURL := fluentdURL;
      this.fluentdCert := fluentdCert;
      this.fluentdKey := fluentdKey;
      this.fluentdCA := fluentdCA;
      this.teleportAddr := teleportAddr;
      this.teleportIdentityFile := teleportIdentityFile;
      this.teleportProfileName := teleportProfileName;
      this.teleportProfileDir := teleportProfileDir;
      this.teleportCA := teleportCA;
      this.teleportCert := teleportCert;
      this.teleportKey := teleportKey;
      this.storageDir := storageDir;
      this.batchSize := batchSize;
      this.namespace := namespace;
      this.types := types;
      this.startTimeRaw := startTimeRaw;
      startTime := ZeroTime;
      this.timeout := timeout;
    }

    /** validateFluentd: a URL, an optional CA that must exist if given, and an existing certificate and key. */
    function ValidateFluentd(fs: FileSystem): (r: Option<ConfigError>)
      reads this, fs
      ensures fluentdURL == "" ==> r == Some(MissingFluentdURL)
      ensures r.None? <==>
                && fluentdURL != ""
                && (fluentdCA == "" || fs.FileExists(fluentdCA))
                && fluentdCert != "" && fs.FileExists(fluentdCert)
                && fluentdKey != "" && fs.FileExists(fluentdKey)
      // the CA is looked at before the certificate, the certificate before the key
      ensures fluentdURL != "" && fluentdCA != "" && !fs.FileExists(fluentdCA) ==>
                r == Some(FluentdCANotFound(fluentdCA))
      ensures fluentdURL != "" && (fluentdCA == "" || fs.FileExists(fluentdCA)) ==>
                && (fluentdCert == "" ==> r == Some(MissingFluentdCert))
                && (fluentdCert != "" && !fs.FileExists(fluentdCert) ==>
                      r == Some(FluentdCertNotFound(fluentdCert)))
                && (fluentdCert != "" && fs.FileExists(fluentdCert) && fluentdKey == "" ==>
                      r == Some(MissingFluentdKey))
                && ((fluentdCert != "" && fs.FileExists(fluentdCert) && fluentdKey != "" && !fs.FileExists(fluentdKey)) ==>
                      r == Some(FluentdKeyNotFound(fluentdKey)))
      ensures r.Some? ==> r.value.Section() == FluentdSection && r.value.IsBadParameter()
    {
      if fluentdURL == "" then Some(MissingFluentdURL)
      else if fluentdCA != "" && !fs.FileExists(fluentdCA) then Some(FluentdCANotFound(fluentdCA))
      else if fluentdCert == "" then Some(MissingFluentdCert)
      else if !fs.FileExists(fluentdCert) then Some(FluentdCertNotFound(fluentdCert))
      else if fluentdKey == "" then Some(MissingFluentdKey)
      else if !fs.FileExists(fluentdKey) then Some(FluentdKeyNotFound(fluentdKey))
      else None
    }

    /** At least one of the Teleport TLS files is given. */
    predicate UsesTeleportTLS()
      reads this
    {
      teleportCA != "" || teleportCert != "" || teleportKey != ""
    }

    /**
     * validateTeleport: either an address and all three TLS files, existing,
     * or, when no TLS file is given, an existing identity file.
     */
    function ValidateTeleport(fs: FileSystem): (r: Option<ConfigError>)
      reads this, fs
      ensures UsesTeleportTLS() ==>
                (r.None? <==>
                   && teleportAddr != ""
                   && teleportCA != "" && fs.FileExists(teleportCA)
                   && teleportCert != "" && fs.FileExists(teleportCert)
                   && teleportKey != "" && fs.FileExists(teleportKey))
      // the address is looked at first, then the CA, the certificate and the key
      ensures UsesTeleportTLS() && teleportAddr == "" ==> r == Some(MissingTeleportAddr)
      ensures UsesTeleportTLS() && teleportAddr != "" ==>
                && (teleportCA == "" ==> r == Some(MissingTeleportCA))
                && (teleportCA != "" && !fs.FileExists(teleportCA) ==>
                      r == Some(TeleportCANotFound(teleportCA)))
      ensures UsesTeleportTLS() && teleportAddr != "" && teleportCA != "" && fs.FileExists(teleportCA) ==>
                && (teleportCert == "" ==> r == Some(MissingTeleportCert))
                && (teleportCert != "" && !fs.FileExists(teleportCert) ==>
                      r == Some(TeleportCertNotFound(teleportCert)))
                && (teleportCert != "" && fs.FileExists(teleportCert) && teleportKey == "" ==>
                      r == Some(MissingTeleportKey))
                && ((teleportCert != "" && fs.FileExists(teleportCert) && teleportKey != "" && !fs.FileExists(teleportKey)) ==>
                      r == Some(TeleportKeyNotFound(teleportKey)))
      ensures !UsesTeleportTLS() && teleportIdentityFile == "" ==> r == Some(MissingIdentityOrCertificates)
      ensures !UsesTeleportTLS() && teleportIdentityFile != "" && !fs.FileExists(teleportIdentityFile) ==>
                r == Some(IdentityFileNotFound(teleportIdentityFile))
      ensures !UsesTeleportTLS() ==>
                (r.None? <==> teleportIdentityFile != "" && fs.FileExists(teleportIdentityFile))
      // with TLS files the identity file plays no part; without them the address plays none
      ensures r.Some? ==>
                r.value.Section() == (if UsesTeleportTLS() then TeleportTLSSection else TeleportIdentitySection)
      ensures r.Some? ==> r.value.IsBadParameter()
    {
      if UsesTeleportTLS() then
        if teleportAddr == "" then Some(MissingTeleportAddr)
        else if teleportCA == "" then Some(MissingTeleportCA)
        else if !fs.FileExists(teleportCA) then Some(TeleportCANotFound(teleportCA))
        else if teleportCert == "" then Some(MissingTeleportCert)
        else if !fs.FileExists(teleportCert) then Some(TeleportCertNotFound(teleportCert))
        else if teleportKey == "" then Some(MissingTeleportKey)
        else if !fs.FileExists(teleportKey) then Some(TeleportKeyNotFound(teleportKey))
        else None
      else if teleportIdentityFile == "" then Some(MissingIdentityOrCertificates)
      else if !fs.FileExists(teleportIdentityFile) then Some(IdentityFileNotFound(teleportIdentityFile))
      else None
    }

    /** The error validateStorage returns from file system state `fs`. */
    function StorageError(fs: FileSystem): (r: Option<ConfigError>)
      reads this, fs
      ensures storageDir == "" ==> r == Some(MissingStorageDir)
      // an existing directory, or one whose stat fails for another reason, is accepted as it is
      ensures r.None? <==> storageDir != "" && (fs.FileExists(storageDir) || storageDir !in fs.unwritable)
      ensures r.Some? ==> r.value.Section() == StorageSection
    {
      if storageDir == "" then Some(MissingStorageDir)
      else if fs.Stat(storageDir).NotExist? && storageDir in fs.unwritable then Some(MkdirFailed(storageDir))
      else None
    }

    /** validateStorage: requires a storage directory and creates it when it does not exist. */
    method ValidateStorage(fs: FileSystem) returns (err: Option<ConfigError>)
      modifies fs`present
      ensures err == old(StorageError(fs))
      ensures fs.present ==
                if storageDir != "" && !old(fs.FileExists(storageDir)) && err.None?
                then old(fs.present) + {storageDir}
                else old(fs.present)
      ensures err.None? ==> fs.FileExists(storageDir)
    {
      if storageDir == "" {
        return Some(MissingStorageDir);
      }
      if fs.Stat(storageDir).NotExist? {
        var ok := fs.MkdirAll(storageDir);
        if !ok {
          return Some(MkdirFailed(storageDir));
        }
      }
      return None;
    }

    /** The error of the start-time step for a given parse result. */
    function StartTimeError(parsed: Option<Time>): (r: Option<ConfigError>)
      reads this
      ensures r.None? <==> parsed.Some?
      ensures r.Some? ==> r == Some(InvalidStartTime(startTimeRaw))
    {
      if parsed.Some? then None else Some(InvalidStartTime(startTimeRaw))
    }

    /**
     * validate: Fluentd, then Teleport, then storage, then the start time;
     * the first failure is returned. StartTime is assigned only once the three
     * other checks have passed, and then even if parsing fails (time.Parse then
     * yields the zero time).
     */
    method Validate(fs: FileSystem, parseRFC3339: string -> Option<Time>) returns (err: Option<ConfigError>)
      modifies this`startTime, fs`present
      ensures err == FirstFailure([old(ValidateFluentd(fs)), old(ValidateTeleport(fs)),
                                   old(StorageError(fs)), StartTimeError(parseRFC3339(startTimeRaw))])
      ensures startTime ==
                if old(ValidateFluentd(fs)).None? && old(ValidateTeleport(fs)).None? && old(StorageError(fs)).None?
                then (if parseRFC3339(startTimeRaw).Some? then parseRFC3339(startTimeRaw).value else ZeroTime)
                else old(startTime)
      ensures fs.present ==
                if && old(ValidateFluentd(fs)).None? && old(ValidateTeleport(fs)).None?
                   && storageDir != "" && !old(fs.FileExists(storageDir)) && old(StorageError(fs)).None?
                then old(fs.present) + {storageDir}
                else old(fs.present)
    {
      ghost var checks := [ValidateFluentd(fs), ValidateTeleport(fs),
                           StorageError(fs), StartTimeError(parseRFC3339(startTimeRaw))];
      err := ValidateFluentd(fs);
      if err.Some? {
        return;
      }
      err := ValidateTeleport(fs);
      if err.Some? {
        FirstFailureAfterPassing(checks, 1);
        return;
      }
      err := ValidateStorage(fs);
      if err.Some? {
        FirstFailureAfterPassing(checks, 2);
        return;
      }
      var parsed := parseRFC3339(startTimeRaw);
      startTime := if parsed.Some? then parsed.value else ZeroTime;
      err := StartTimeError(parsed);
      FirstFailureAfterPassing(checks, 3);
    }
  }
}
