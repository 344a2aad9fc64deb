/** Start-up of signerd: what a configuration that passes validation guarantees at run time. */
module DaemonConfig {
  import opened Common
  import Backends
  import TokenHealth
  import Disk

  const TWO_63: int := 0x8000_0000_0000_0000
  const BYTES_PER_MIB: int := 0x10_0000
  const DEFAULT_MAX_BODY: int := 100 * BYTES_PER_MIB

  type Int64 = x: int | -TWO_63 <= x < TWO_63

  /** Multiplication of two int64 values wraps around. */
  function Wrap(x: int): Int64 {
    (x + TWO_63) % (2 * TWO_63) - TWO_63
  }

  datatype Config = Config(
    maxBodyMiB: Int64,
    backend: string,
    pkcs11Module: string,
    certFile: string,
    pin: seq<Byte>,
    healthCommand: seq<string>,
    audience: string,
    allowedRepositories: seq<string>)

  datatype FileKind = Missing | NotRegular | Regular

  /** The machine that signerd starts on, and the two string functions it borrows. */
  datatype Env = Env(
    allowFake: string,
    stat: string -> FileKind,
    toLower: string -> string,
    trimSpace: string -> string)

  datatype ConfigError =
    | BadMaxBody | NoAudience | NoPKCS11Module | NoCertFile | NoJsignProbe | FakeDisabled | UnknownBackend
    | BadFile(path: string, kind: FileKind)

  datatype Signer = OSSLSigncode(config: Backends.Config) | Jsign(config: Backends.Config) | Fake

  datatype VerifierConfig = VerifierConfig(audience: string, allowedRepositories: seq<string>)

  datatype Daemon = Daemon(maxBody: Int64, signer: Signer, verifier: Option<VerifierConfig>)

  datatype Result<T> = Ok(value: T) | Err(error: ConfigError)

  function RequireFile(env: Env, path: string): Option<ConfigError> {
    if env.stat(path) == Regular then None else Some(BadFile(path, env.stat(path)))
  }

  function ValidateLimits(config: Config, env: Env): Option<ConfigError> {
    if config.maxBodyMiB < 0 || config.maxBodyMiB > (TWO_63 - 1) / BYTES_PER_MIB then Some(BadMaxBody)
    else if |config.allowedRepositories| > 0 && env.trimSpace(config.audience) == "" then Some(NoAudience)
    else None
  }

  function ValidateOSSL(config: Config, env: Env): Option<ConfigError> {
    if config.pkcs11Module == "" then Some(NoPKCS11Module)
    else if RequireFile(env, config.pkcs11Module).Some? then RequireFile(env, config.pkcs11Module)
    else if config.certFile == "" then Some(NoCertFile)
    else RequireFile(env, config.certFile)
  }

  function ValidateJsign(config: Config, env: Env): Option<ConfigError> {
    if config.certFile == "" then Some(NoCertFile)
    else if RequireFile(env, config.certFile).Some? then RequireFile(env, config.certFile)
    else if config.pkcs11Module == "" && |config.healthCommand| == 0 then Some(NoJsignProbe)
    else if config.pkcs11Module != "" then RequireFile(env, config.pkcs11Module)
    else None
  }

  function ValidateFake(env: Env): Option<ConfigError> {
    if env.allowFake != "1" then Some(FakeDisabled) else None
  }

  function ValidateConfig(config: Config, env: Env): Option<ConfigError> {
    if ValidateLimits(config, env).Some? then ValidateLimits(config, env)
    else
      var backend := env.toLower(config.backend);
      if backend in {"", "osslsigncode"} then ValidateOSSL(config, env)
      else if backend == "jsign" then ValidateJsign(config, env)
      else if backend == "fake" then ValidateFake(env)
      else Some(UnknownBackend)
  }

  function BackendConfig(config: Config): Backends.Config {
    Backends.WithDefaults(Backends.Config(config.pkcs11Module, config.certFile, config.pin, config.healthCommand))
  }

  function BuildSigner(config: Config, env: Env): Result<Signer> {
    var backend := env.toLower(config.backend);
    if backend in {"", "osslsigncode"} then Ok(OSSLSigncode(BackendConfig(config)))
    else if backend == "jsign" then Ok(Jsign(BackendConfig(config)))
    else if backend == "fake" then if env.allowFake != "1" then Err(FakeDisabled) else Ok(Fake)
    else Err(UnknownBackend)
  }

  /** newDaemon with the defaults of server.New. */
  function NewDaemon(config: Config, env: Env): Result<Daemon> {
    match BuildSigner(config, env)
    case Err(error) => Err(error)
    case Ok(signer) =>
      var verifier := if |config.allowedRepositories| > 0
                      then Some(VerifierConfig(config.audience, config.allowedRepositories)) else None;
      var maxBody := Wrap(config.maxBodyMiB * BYTES_PER_MIB);
      Ok(Daemon(if maxBody == 0 then DEFAULT_MAX_BODY else maxBody, signer, verifier))
  }

  // ---------------------------------------------------------------- the gates at run time

  /** A request that keeps its side of the Signer contract is turned away before the tool runs. */
  ghost predicate SignIsGated(signer: Signer, req: Backends.Request)
    requires Backends.Contract(Some(req)).None?
  {
    match signer
    case OSSLSigncode(cfg) => Backends.OsslGate(cfg, Some(req)).Some?
    case Jsign(cfg) => Backends.JsignGate(cfg, Some(req)).Some?
    case Fake => false
  }

  ghost predicate SignNeverGated(signer: Signer) {
    forall req :: Backends.Contract(Some(req)).None? ==> !SignIsGated(signer, req)
  }

  /** Health has a command to run. */
  predicate HasProbe(signer: Signer) {
    signer.Fake? || signer.config.healthCommand != []
  }

  /** The two tests with which Verify starts. */
  predicate VerifyIsGated(verifier: VerifierConfig) {
    |verifier.allowedRepositories| == 0 || verifier.audience == ""
  }

  /** The files that the backend names are regular files. */
  predicate FilesInPlace(signer: Signer, env: Env) {
    match signer
    case OSSLSigncode(cfg) => env.stat(cfg.pkcs11Module) == Regular && env.stat(cfg.certFile) == Regular
    case Jsign(cfg) =>
      env.stat(cfg.certFile) == Regular && (cfg.pkcs11Module == "" || env.stat(cfg.pkcs11Module) == Regular)
    case Fake => true
  }

  /** The body limit is what the configuration says in MiB, or the default for zero. */
  predicate LimitIsExact(config: Config, daemon: Daemon) {
    config.maxBodyMiB >= 0
    && daemon.maxBody == if config.maxBodyMiB == 0 then DEFAULT_MAX_BODY else config.maxBodyMiB * BYTES_PER_MIB
  }

  /** A daemon without surprises. The last conjunct is the one thing that validation asks beyond what Verify
      needs: an audience of white space alone would pass the test in Verify. */
  ghost predicate Sound(config: Config, env: Env) {
    NewDaemon(config, env).Ok?
    && var daemon := NewDaemon(config, env).value;
       && LimitIsExact(config, daemon)
       && SignNeverGated(daemon.signer)
       && HasProbe(daemon.signer)
       && FilesInPlace(daemon.signer, env)
       && (daemon.verifier.Some? ==> env.trimSpace(daemon.verifier.value.audience) != "")
  }

  lemma WrapIsExact(mib: Int64)
    ensures 0 <= mib <= (TWO_63 - 1) / BYTES_PER_MIB <==> mib >= 0 && Wrap(mib * BYTES_PER_MIB) == mib * BYTES_PER_MIB
  {
  }

  /** One request that keeps the contract. */
  const SOME_REQUEST: Backends.Request := Backends.Request(Disk.Path("", "a"), Disk.Path("", "b"), false)

  lemma GatesAreConfiguration(signer: Signer)
    ensures SignNeverGated(signer) <==>
            match signer
            case OSSLSigncode(cfg) => cfg.pkcs11Module != "" && cfg.certFile != ""
            case Jsign(cfg) => cfg.certFile != ""
            case Fake => true
  {
    assert Backends.Contract(Some(SOME_REQUEST)).None?;
    if SignNeverGated(signer) {
      assert !SignIsGated(signer, SOME_REQUEST);
    }
  }

  /** Validation is exact: it accepts a configuration if and only if the daemon built from it is sound. */
  lemma ValidationIsExact(config: Config, env: Env)
    ensures ValidateConfig(config, env).None? <==> Sound(config, env)
  {
    WrapIsExact(config.maxBodyMiB);
    TokenHealth.DefaultProbeAsksForCertificates(config.pkcs11Module);
    if NewDaemon(config, env).Ok? {
      GatesAreConfiguration(NewDaemon(config, env).value.signer);
    }
  }

  /** After validation, no request meets the gates of the backend or of Verify, whatever the request is. */
  lemma ValidatedGatesAreUnreachable(config: Config, env: Env)
    requires ValidateConfig(config, env).None? && env.trimSpace("") == ""
    ensures NewDaemon(config, env).Ok?
    ensures var daemon := NewDaemon(config, env).value;
            && 0 < daemon.maxBody && LimitIsExact(config, daemon)
            && (forall req :: Backends.Contract(Some(req)).None? ==> !SignIsGated(daemon.signer, req))
            && HasProbe(daemon.signer)
            && (daemon.verifier.Some? <==> config.allowedRepositories != [])
            && (daemon.verifier.Some? ==> !VerifyIsGated(daemon.verifier.value))
  {
    ValidationIsExact(config, env);
  }

  /** Nothing of the configuration is lost on the way to the daemon: its backend has the module, the certificate, the
      PIN and the health command, its verifier the audience and the whole allowlist, its server the limit. */
  lemma DaemonCarriesItAll(config: Config, env: Env)
    requires NewDaemon(config, env).Ok?
    ensures var backend, signer := env.toLower(config.backend), NewDaemon(config, env).value.signer;
            && (signer.OSSLSigncode? <==> backend in {"", "osslsigncode"})
            && (signer.Jsign? <==> backend == "jsign")
            && (signer.Fake? <==> backend == "fake") && (signer.Fake? ==> env.allowFake == "1")
    ensures var signer := NewDaemon(config, env).value.signer;
            !signer.Fake? ==>
              && signer.config.pkcs11Module == config.pkcs11Module && signer.config.certFile == config.certFile
              && signer.config.pin == config.pin
              && signer.config.healthCommand
                 == if config.healthCommand != [] then config.healthCommand
                    else if config.pkcs11Module == "" then []
                    else ["pkcs11-tool", "--module", config.pkcs11Module, "--list-objects", "--type", "cert"]
    ensures var verifier := NewDaemon(config, env).value.verifier;
            if |config.allowedRepositories| == 0 then verifier == None
            else verifier == Some(VerifierConfig(config.audience, config.allowedRepositories))
    ensures 0 < config.maxBodyMiB <= 0x7FF_FFFF_FFFF ==>
              NewDaemon(config, env).value.maxBody == config.maxBodyMiB * 1_048_576
    ensures config.maxBodyMiB == 0 ==> NewDaemon(config, env).value.maxBody == 104_857_600
  {
  }

  /** Which complaint comes first, in the order of the tests. */
  lemma ComplaintsComeInOrder(config: Config, env: Env)
    ensures var limit := config.maxBodyMiB < 0 || config.maxBodyMiB > 0x7FF_FFFF_FFFF;
            var audience := config.allowedRepositories != [] && env.trimSpace(config.audience) == "";
            && (limit ==> ValidateConfig(config, env) == Some(BadMaxBody))
            && (!limit && audience ==> ValidateConfig(config, env) == Some(NoAudience))
            && (!limit && !audience ==>
                  ValidateConfig(config, env) == BackendComplaint(config, env, env.toLower(config.backend)))
  {
  }

  /** A file that is missing or not regular is named, with what it is. */
  function FileComplaint(env: Env, path: string): seq<ConfigError> {
    if env.stat(path).Regular? then [] else [BadFile(path, env.stat(path))]
  }

  /** The first of a backend's complaints, listed in order. */
  function BackendComplaint(config: Config, env: Env, backend: string): Option<ConfigError> {
    var noCert := if config.certFile == "" then [NoCertFile] else FileComplaint(env, config.certFile);
    var all :=
      if backend == "" || backend == "osslsigncode" then
        (if config.pkcs11Module == "" then [NoPKCS11Module] else FileComplaint(env, config.pkcs11Module)) + noCert
      else if backend == "jsign" then
        noCert + (if config.pkcs11Module != "" then FileComplaint(env, config.pkcs11Module)
                  else if config.healthCommand == [] then [NoJsignProbe] else [])
      else if backend == "fake" then
        if env.allowFake == "1" then [] else [FakeDisabled]
      else [UnknownBackend];
    if all == [] then None else Some(all[0])
  }
}
