/** The two signing backends: a PIN file and a staging file around one run of an external tool,
    nested in opposite orders, and published by rename. */
module Backends {
  import opened Common
  import opened Disk
  import TokenHealth

  const TEMP_DIR: string := "/tmp"
  const PIN_PREFIX: string := "codesign-pin-"

  /** The paths are the same file for os.SameFile when `aliased`. */
  datatype Request = Request(input: Path, output: Path, aliased: bool)

  /** The parts of a backend's configuration that decide what Sign does with files, and the health probe. */
  datatype Config = Config(pkcs11Module: string, certFile: string, pin: seq<Byte>, healthCommand: seq<string>)

  /** The one default of both constructors that is not a plain constant. */
  function WithDefaults(cfg: Config): Config {
    if cfg.healthCommand == [] then cfg.(healthCommand := TokenHealth.DefaultTokenHealth(cfg.pkcs11Module)) else cfg
  }

  datatype SignError =
    | NilRequest | SamePath | NoPKCS11Module | NoCertFile
    | PINFileFailed | StagingFailed | CopyFailed | ToolFailed | PublishFailed

  datatype SignResult = Signed | Failed(error: SignError)

  /** What the tool finds on disk when it starts. */
  datatype ToolView = ToolView(staging: Option<FileData>, input: Option<FileData>, pin: Option<FileData>)

  /** An arbitrary tool: what it does to the staging file may depend on everything it is given. */
  type Tool = ToolView -> ToolResult

  /** What a run of Sign used: the temporary paths, those it could not remove, and the tool's view. */
  datatype Usage = Usage(scratch: set<Path>, stuck: set<Path>, view: Option<ToolView>)

  /** os.CreateTemp(dir, "." + base + ".signing-*"). */
  function StagingPrefix(output: Path): string {
    "." + output.base + ".signing-"
  }

  /** os.CreateTemp can pick this path for the PIN file. */
  ghost predicate PINNamed(p: Path) {
    exists draw: Draw :: p == TempPath(TEMP_DIR, PIN_PREFIX, draw)
  }

  /** os.CreateTemp can pick this path for the staging file. */
  ghost predicate StagingNamed(p: Path, output: Path) {
    exists draw: Draw :: p == TempPath(output.dir, StagingPrefix(output), draw)
  }

  /** The PIN file can take the place of the output: a caller avoids it by any other output name. */
  ghost predicate MayCollide(files: Files, output: Path, pin: seq<Byte>) {
    pin != [] && PINNamed(output) && output !in files
  }

  /** The PIN file of a backend whose call of os.CreateTemp for it is call `k`. */
  function PINPath(disk: Disk, k: nat): (p: Path)
    ensures PINNamed(p) && p.base[..1] == "c"
    ensures p == Path("/tmp", "codesign-pin-" + Decimal(disk.draws(k)))
  {
    disk.Temp(k, TEMP_DIR, PIN_PREFIX)
  }

  /** The staging file; it is not the output, because its name is longer. */
  function StagingPath(disk: Disk, output: Path, k: nat): (p: Path)
    ensures StagingNamed(p, output) && p != output && p.base[..1] == "."
    ensures p == Path(output.dir, "." + output.base + ".signing-" + Decimal(disk.draws(k)))
  {
    var p := disk.Temp(k, output.dir, StagingPrefix(output));
    assert |p.base| > |output.base|;
    p
  }

  function Contract(req: Option<Request>): Option<SignError> {
    if req.None? then Some(NilRequest)
    else if req.value.input == req.value.output || req.value.aliased then Some(SamePath)
    else None
  }

  /** Input and output are one file, by name or by identity. */
  predicate SamePaths(req: Option<Request>) {
    match req
    case None => false
    case Some(r) => (r.input.dir == r.output.dir && r.input.base == r.output.base) || r.aliased
  }

  /** The checks before anything is touched. */
  function OsslGate(cfg: Config, req: Option<Request>): Option<SignError> {
    if Contract(req).Some? then Contract(req)
    else if cfg.pkcs11Module == "" then Some(NoPKCS11Module)
    else if cfg.certFile == "" then Some(NoCertFile)
    else None
  }

  function JsignGate(cfg: Config, req: Option<Request>): Option<SignError> {
    if Contract(req).Some? then Contract(req)
    else if cfg.certFile == "" then Some(NoCertFile)
    else None
  }

  function PINFile(pin: seq<Byte>): Option<FileData> {
    if |pin| == 0 then None else Some(FileData(pin, 0x180))
  }

  /** The file that a run of Sign publishes, if any. */
  function Published(result: SignResult, use: Usage, tool: Tool): Option<FileData> {
    if result.Signed? && use.view.Some? then tool(use.view.value).after else None
  }

  /** Success means that the tool ran, said so, and left a file. */
  ghost predicate ToolAgrees(result: SignResult, use: Usage, tool: Tool) {
    result.Signed? ==> use.view.Some? && tool(use.view.value).ok && tool(use.view.value).after.Some?
  }

  /** What a run in which no operation fails must come to. */
  function Verdict(result: ToolResult): SignResult {
    if !result.ok then Failed(ToolFailed) else if result.after.None? then Failed(PublishFailed) else Signed
  }

  /** The contract of both backends. */
  ghost predicate Contracted(before: Files, after: Files, history: seq<Files>, from: nat, output: Path,
                             result: SignResult, use: Usage, tool: Tool) {
    && ToolAgrees(result, use, tool)
    && Replaces(before, after, history, from, output, Published(result, use, tool), use.scratch, use.stuck)
  }

  /** For any output, even one whose name the PIN file takes: at every recorded instant only scratch paths and
      the output differ from `before`, and the other scratch paths were free and are so again unless a removal
      failed. */
  ghost predicate Confined(before: Files, after: Files, history: seq<Files>, from: nat, output: Path, use: Usage) {
    && Kept(history, Watch(from, before, use.scratch + {output}))
    && SameOutside(before, after, use.scratch + {output})
    && forall p :: p in use.scratch ==> p !in before && (p in after && p != output ==> p in use.stuck)
  }

  /** What Sign promises for every failure pattern and every tool. Faults and states are only added; temporary
      files have the names drawn for them; and unless the PIN file took the output's name, the contract holds. */
  twostate predicate Fulfils(disk: Disk, output: Path, names: set<Path>, result: SignResult, use: Usage, tool: Tool)
    reads disk
  {
    && disk.Valid() && old(disk.history) <= disk.history && old(disk.faults) <= disk.faults
    && use.scratch <= names && AllRefused(use.stuck, disk.faults, |old(disk.faults)|)
    && Confined(old(disk.files), disk.files, disk.history, |old(disk.history)|, output, use)
    && (output !in use.scratch ==>
          Contracted(old(disk.files), disk.files, disk.history, |old(disk.history)|, output, result, use, tool))
  }

  /** The tool saw the input, and the PIN in a file of mode 0600 or no PIN file at all. */
  predicate Saw(before: Files, req: Request, pin: seq<Byte>, view: ToolView) {
    view.pin == PINFile(pin) && (req.input in before ==> view.input == Some(before[req.input]))
  }

  /** withPINFile up to the call of its argument; no file is made for an empty PIN. */
  method WritePINFile(disk: Disk, pin: seq<Byte>) returns (ok: bool, path: Option<Path>, ghost stuck: set<Path>)
    requires disk.Valid()
    modifies disk
    ensures disk.Valid() && old(disk.history) <= disk.history
    ensures forall w :: old(disk.Clean(w)) ==> disk.Clean(w.(scratch := w.scratch + Just(path)))
    ensures path.Some? ==> path.value !in old(disk.files) && path.value == PINPath(disk, old(disk.temps)) && pin != []
    ensures disk.temps == old(disk.temps) + (if pin == [] then 0 else 1)
    ensures disk.Reliable() && (pin != [] ==> PINPath(disk, old(disk.temps)) !in old(disk.files)) ==> ok
    ensures ok ==> (path.None? <==> pin == []) && stuck == {}
    ensures ok ==> disk.files == if path.None? then old(disk.files)
                                 else old(disk.files)[path.value := FileData(pin, OWNER_ONLY)]
    ensures stuck <= Just(path) && (!ok && path.Some? && path.value in disk.files ==> path.value in stuck)
    ensures old(disk.faults) <= disk.faults && (ok <==> disk.faults == old(disk.faults))
    ensures AllRefused(stuck, disk.faults, |old(disk.faults)|)
  {
    stuck := {};
    if pin == [] {
      return true, None, stuck;
    }
    path := disk.CreateTemp(TEMP_DIR, PIN_PREFIX);
    if path.None? {
      return false, None, stuck;
    }
    var written := disk.Write(path.value, pin);
    var closed := disk.Attempt();
    if !written || !closed {
      ghost var n := |disk.faults|;
      stuck := disk.Discard(path.value);
      StillRefused(stuck, disk.faults, n, disk.faults, |old(disk.faults)|);
      return false, path, stuck;
    }
    ok := true;
  }

  /** publishSigned up to the call of its argument. */
  method OpenStaging(disk: Disk, output: Path) returns (ok: bool, staging: Option<Path>, ghost stuck: set<Path>)
    requires disk.Valid()
    modifies disk
    ensures disk.Valid() && old(disk.history) <= disk.history
    ensures forall w :: old(disk.Clean(w)) ==> disk.Clean(w.(scratch := w.scratch + Just(staging)))
    ensures staging.Some? ==>
              staging.value !in old(disk.files) && staging.value == StagingPath(disk, output, old(disk.temps))
    ensures disk.temps == old(disk.temps) + 1
    ensures disk.Reliable() && StagingPath(disk, output, old(disk.temps)) !in old(disk.files) ==> ok
    ensures ok ==> staging.Some? && stuck == {}
                   && disk.files == old(disk.files)[staging.value := FileData([], OWNER_ONLY)]
    ensures stuck <= Just(staging)
    ensures !ok && staging.Some? && staging.value in disk.files ==> staging.value in stuck
    ensures old(disk.faults) <= disk.faults && (ok <==> disk.faults == old(disk.faults))
    ensures AllRefused(stuck, disk.faults, |old(disk.faults)|)
  {
    stuck := {};
    staging := disk.CreateTemp(output.dir, StagingPrefix(output));
    if staging.None? {
      return false, None, stuck;
    }
    var closed := disk.Attempt();
    if !closed {
      ghost var n := |disk.faults|;
      stuck := disk.Discard(staging.value);
      StillRefused(stuck, disk.faults, n, disk.faults, |old(disk.faults)|);
      return false, staging, stuck;
    }
    ok := true;
  }

  /** What publishSigned leaves: on failure nothing outside its staging path has changed; on success the
      rename was the last change. */
  ghost predicate PublishedBy(before: Files, after: Files, was: seq<Files>, history: seq<Files>, output: Path,
                              result: SignResult, use: Usage, tool: Tool) {
    && was <= history && |was| <= |history| - Renames(result)
    && ToolAgrees(result, use, tool)
    && SameOutside(Final(before, output, Published(result, use, tool)), after, use.scratch)
    && Kept(history[..|history| - Renames(result)], Watch(|was|, before, use.scratch))
    && (result.Signed? ==> history[|history| - 1] == after)
    && Tidy(before, after, output, use.scratch, use.stuck)
  }

  /** The entries of the history that already show the output. */
  function Renames(result: SignResult): nat {
    if result.Signed? then 1 else 0
  }

  /** The rename publishes. */
  lemma Renamed(before: Files, mid: Files, was: seq<Files>, h: seq<Files>, staging: Path, output: Path,
                use: Usage, tool: Tool)
    requires was <= h && Kept(h, Watch(|was|, before, use.scratch)) && SameOutside(before, mid, use.scratch)
    requires staging in use.scratch && staging != output && staging in mid && use.stuck <= use.scratch
    requires forall p :: p in use.scratch ==> p !in before && (p in mid && p != staging ==> p in use.stuck)
    requires use.view.Some? && tool(use.view.value).ok && Get(mid, staging) == tool(use.view.value).after
    ensures var after := (mid - {staging})[output := mid[staging]];
            && Confined(before, after, h + [after], |was|, output, use)
            && (output !in use.scratch ==> PublishedBy(before, after, was, h + [after], output, Signed, use, tool))
  {
    var after := (mid - {staging})[output := mid[staging]];
    assert (h + [after])[..|h|] == h;
  }

  /** The end of publishSigned: the rename when the tool is content, and the deferred removal otherwise. */
  method CloseStaging(disk: Disk, staging: Path, output: Path, failure: Option<SignError>,
                      ghost before: Files, ghost was: seq<Files>, ghost faultsWere: seq<Fault>,
                      ghost sofar: Usage, ghost tool: Tool)
    returns (result: SignResult, ghost use: Usage)
    requires faultsWere <= disk.faults && AllRefused(sofar.stuck, disk.faults, |faultsWere|)
    requires disk.Clean(Watch(|was|, before, sofar.scratch)) && was <= disk.history
    requires staging in sofar.scratch && staging != output && sofar.stuck <= sofar.scratch
    requires forall p :: p in sofar.scratch ==>
               p !in before && (p in disk.files && p != staging ==> p in sofar.stuck)
    requires failure.None? ==> sofar.view.Some? && tool(sofar.view.value).ok
                               && Get(disk.files, staging) == tool(sofar.view.value).after
    modifies disk
    ensures disk.Valid() && old(disk.history) <= disk.history
    ensures disk.Steady() && AllRefused(use.stuck, disk.faults, |faultsWere|)
    ensures result.Failed? ==> result.error == if failure.Some? then failure.value else PublishFailed
    ensures failure.Some? ==> result.Failed?
    ensures disk.faults == old(disk.faults) && failure.None? ==>
              use.view.Some? && result == Verdict(tool(use.view.value))
    ensures use == sofar.(stuck := use.stuck)
    ensures output !in use.scratch ==>
              PublishedBy(before, disk.files, was, disk.history, output, result, use, tool)
    ensures Confined(before, disk.files, disk.history, |was|, output, use)
    ensures result.Failed? ==> forall p :: p in use.scratch && p in disk.files ==> p in use.stuck
    ensures result.Signed? ==> use.view.Some? && Get(disk.files, output) == tool(use.view.value).after
  {
    use := sofar;
    ghost var w := Watch(|was|, before, sofar.scratch);
    if failure.None? {
      var renamed := disk.Rename(staging, output);
      if renamed {
        Renamed(before, old(disk.files), was, old(disk.history), staging, output, use, tool);
        return Signed, use;
      }
    }
    ghost var stuck, n := {}, disk.faults;
    stuck := disk.Discard(staging);
    StillRefused(stuck, disk.faults, |n|, disk.faults, |faultsWere|);
    StillRefused(use.stuck, old(disk.faults), |faultsWere|, disk.faults, |faultsWere|);
    use := use.(stuck := use.stuck + stuck);
    assert disk.Clean(w);
    assert disk.history[..|disk.history|] == disk.history;
    result := Failed(if failure.Some? then failure.value else PublishFailed);
  }

  /** Publishing between the making and the removal of a PIN file. */
  lemma PublishedInside(before: Files, h0: seq<Files>, mid: Files, h1: seq<Files>, late: Files, h2: seq<Files>,
                        after: Files, h3: seq<Files>, pinFile: Path, stuck: set<Path>,
                        output: Path, result: SignResult, use: Usage, tool: Tool)
    requires h0 <= h1 <= h2 <= h3 && pinFile !in before && pinFile in mid && pinFile != output
    requires Kept(h1, Watch(|h0|, before, {pinFile})) && SameOutside(before, mid, {pinFile})
    requires PublishedBy(mid, late, h1, h2, output, result, use, tool)
    requires Kept(h3, Watch(|h2|, late, {pinFile})) && SameOutside(late, after, {pinFile})
    requires stuck <= {pinFile} && (pinFile in after ==> pinFile in stuck)
    ensures Contracted(before, after, h3, |h0|, output, result,
                       Usage(use.scratch + {pinFile}, use.stuck + stuck, use.view), tool)
  {
  }

  /** The same when the PIN file may have the name of the output. */
  lemma ConfinedInside(before: Files, h0: seq<Files>, mid: Files, h1: seq<Files>, late: Files, h2: seq<Files>,
                       after: Files, h3: seq<Files>, pinFile: Path, stuck: set<Path>,
                       output: Path, result: SignResult, use: Usage, tool: Tool)
    requires h0 <= h1 <= h2 <= h3 && pinFile !in before && pinFile in mid
    requires Kept(h1, Watch(|h0|, before, {pinFile})) && SameOutside(before, mid, {pinFile})
    requires PublishedBy(mid, late, h1, h2, output, result, use, tool)
    requires Kept(h3, Watch(|h2|, late, {pinFile})) && SameOutside(late, after, {pinFile})
    requires stuck <= {pinFile} && (pinFile in after ==> pinFile in stuck)
    ensures Confined(before, after, h3, |h0|, output, Usage(use.scratch + {pinFile}, use.stuck + stuck, use.view))
  {
  }

  /** Both, with what the removal of the PIN file is known to do. */
  lemma Inside(before: Files, h0: seq<Files>, mid: Files, h1: seq<Files>, late: Files, h2: seq<Files>,
               after: Files, h3: seq<Files>, pinFile: Path, stuck: set<Path>,
               output: Path, result: SignResult, use: Usage, tool: Tool)
    requires h0 <= h1 <= h2 <= h3 && pinFile !in before && pinFile in mid
    requires Kept(h1, Watch(|h0|, before, {pinFile})) && SameOutside(before, mid, {pinFile})
    requires PublishedBy(mid, late, h1, h2, output, result, use, tool)
    requires Kept(h3, Watch(|h2|, late, {pinFile})) && SameOutside(late, after, {pinFile})
    requires stuck <= {pinFile} && (pinFile in after ==> pinFile in stuck)
    ensures var all := Usage(use.scratch + {pinFile}, use.stuck + stuck, use.view);
            && Confined(before, after, h3, |h0|, output, all)
            && (pinFile != output ==> Contracted(before, after, h3, |h0|, output, result, all, tool))
  {
    ConfinedInside(before, h0, mid, h1, late, h2, after, h3, pinFile, stuck, output, result, use, tool);
    if pinFile != output {
      PublishedInside(before, h0, mid, h1, late, h2, after, h3, pinFile, stuck, output, result, use, tool);
    }
  }

  /** Without a fault the contract fixes the whole disk. */
  lemma FaultFree(before: Files, after: Files, history: seq<Files>, from: nat, output: Path,
                  result: SignResult, use: Usage, tool: Tool, faults: seq<Fault>)
    requires Contracted(before, after, history, from, output, result, use, tool)
    requires AllRefused(use.stuck, faults, |faults|)
    ensures after == Final(before, output, Published(result, use, tool))
  {
    assert use.stuck == {};
    NothingElseChanged(before, after, history, from, output, Published(result, use, tool), use.scratch);
  }

  /** The same for an output whose name the PIN file may have taken, given what the output came to. */
  lemma FaultFreeAnyway(before: Files, after: Files, history: seq<Files>, from: nat, output: Path,
                        published: Option<FileData>, use: Usage, faults: seq<Fault>)
    requires Confined(before, after, history, from, output, use) && AllRefused(use.stuck, faults, |faults|)
    requires output !in before && Get(after, output) == published
    ensures after == Final(before, output, published)
  {
    assert use.stuck == {};
    forall p ensures Get(after, p) == Get(Final(before, output, published), p) {
      assert p in use.scratch ==> p !in before;
    }
    FilesFromGet(after, Final(before, output, published));
  }

  /** Publishing alone. */
  lemma PublishedAlone(before: Files, h0: seq<Files>, after: Files, h1: seq<Files>,
                       output: Path, result: SignResult, use: Usage, tool: Tool)
    requires PublishedBy(before, after, h0, h1, output, result, use, tool)
    ensures Contracted(before, after, h1, |h0|, output, result, use, tool)
    ensures Confined(before, after, h1, |h0|, output, use)
  {
  }

  class OSSLSigncode {
    const config: Config

    constructor (config: Config)
      ensures this.config == WithDefaults(config)
      ensures this.config.pkcs11Module == config.pkcs11Module && this.config.certFile == config.certFile
      ensures this.config.pin == config.pin
      ensures config.healthCommand != [] ==> this.config.healthCommand == config.healthCommand
      ensures config.healthCommand == [] && config.pkcs11Module != "" ==>
                this.config.healthCommand
                == ["pkcs11-tool", "--module", config.pkcs11Module, "--list-objects", "--type", "cert"]
      ensures config.healthCommand == [] && config.pkcs11Module == "" ==> this.config.healthCommand == []
    {
      this.config := WithDefaults(config);
    }

    /** The function passed to publishSigned: osslsigncode refuses to overwrite its output, so the
        staging file is removed before the tool runs. */
    method WriteStaging(disk: Disk, staging: Path, req: Request, pinFile: Option<Path>, tool: Tool)
      returns (failure: Option<SignError>, view: Option<ToolView>)
      requires disk.Valid() && staging in disk.files
      modifies disk
      ensures disk.Touches(staging) && SameOutside(old(disk.files), disk.files, {staging})
      ensures failure == if view.None? then Some(StagingFailed)
                         else if tool(view.value).ok then None else Some(ToolFailed)
      ensures view.Some? ==> Get(disk.files, staging) == tool(view.value).after
      ensures view.Some? ==> view.value.staging == None
      ensures view.Some? ==> forall p :: p != staging ==>
                (req.input == p ==> view.value.input == Get(old(disk.files), p))
                && (pinFile == Some(p) ==> view.value.pin == Get(old(disk.files), p))
      ensures view.Some? && pinFile.None? ==> view.value.pin == None
      ensures disk.Steady() && (view.Some? <==> disk.faults == old(disk.faults))
    {
      var cleared := disk.Remove(staging);
      if !cleared {
        return Some(StagingFailed), None;
      }
      var found := ToolView(None, Get(disk.files, req.input),
                            if pinFile.Some? then Get(disk.files, pinFile.value) else None);
      disk.RunTool(staging, tool(found));
      return if tool(found).ok then None else Some(ToolFailed), Some(found);
    }

    /** publishSigned around WriteStaging. */
    method Publish(disk: Disk, req: Request, pinFile: Option<Path>, tool: Tool)
      returns (result: SignResult, ghost use: Usage)
      requires disk.Valid()
      modifies disk
      ensures disk.Valid()
      ensures PublishedBy(old(disk.files), disk.files, old(disk.history), disk.history, req.output, result, use, tool)
      ensures use.scratch <= {StagingPath(disk, req.output, old(disk.temps))}
      ensures disk.Reliable() && StagingPath(disk, req.output, old(disk.temps)) !in old(disk.files) ==>
                disk.faults == old(disk.faults)
      ensures use.view.Some? ==> use.view.value.staging == None
      ensures use.view.Some? && pinFile.Some? && pinFile.value in old(disk.files) ==>
                use.view.value.pin == Some(old(disk.files)[pinFile.value])
      ensures use.view.Some? && pinFile.None? ==> use.view.value.pin == None
      ensures use.view.Some? && req.input in old(disk.files) ==>
                use.view.value.input == Some(old(disk.files)[req.input])
      ensures result.Failed? ==> result.error in {StagingFailed, ToolFailed, PublishFailed}
      ensures old(disk.faults) <= disk.faults && AllRefused(use.stuck, disk.faults, |old(disk.faults)|)
      ensures disk.faults == old(disk.faults) ==> use.view.Some? && result == Verdict(tool(use.view.value))
    {
      ghost var w := Watch(|disk.history|, disk.files, {});
      var ok, path;
      ghost var stuck;
      ok, path, stuck := OpenStaging(disk, req.output);
      use := Usage(Just(path), stuck, None);
      assert disk.Clean(w.(scratch := w.scratch + Just(path)));
      if !ok {
        return Failed(StagingFailed), use;
      }
      w := w.(scratch := {path.value});
      var failure, view := WriteStaging(disk, path.value, req, pinFile, tool);
      assert disk.Clean(w);
      result, use := CloseStaging(disk, path.value, req.output, failure, w.before, old(disk.history),
                                  old(disk.faults), use.(view := view), tool);
    }

    /** Publishing, and the removal of the PIN file after it. */
    method PublishThenDiscard(disk: Disk, req: Request, pinFile: Path, tool: Tool, ghost before: Files,
                              ghost h0: seq<Files>)
      returns (result: SignResult, ghost use: Usage)
      requires disk.Valid() && config.pin != [] && Get(disk.files, pinFile) == PINFile(config.pin)
      requires pinFile !in before && h0 <= disk.history
      requires disk.Clean(Watch(|h0|, before, {pinFile}))
      modifies disk
      ensures disk.Valid() && old(disk.history) <= disk.history && old(disk.faults) <= disk.faults
      ensures result.Failed? ==> result.error in {StagingFailed, ToolFailed, PublishFailed}
      ensures pinFile != req.output ==>
                Contracted(before, disk.files, disk.history, |h0|, req.output, result, use, tool)
      ensures Confined(before, disk.files, disk.history, |h0|, req.output, use)
      ensures use.scratch <= {pinFile, StagingPath(disk, req.output, old(disk.temps))}
      ensures disk.Reliable() && StagingPath(disk, req.output, old(disk.temps)) !in old(disk.files) ==>
                disk.faults == old(disk.faults)
      ensures pinFile in use.scratch && (pinFile in disk.files ==> pinFile in use.stuck)
      ensures AllRefused(use.stuck, disk.faults, |old(disk.faults)|)
      ensures disk.faults == old(disk.faults) ==> use.view.Some? && result == Verdict(tool(use.view.value))
      ensures use.view.Some? ==> use.view.value.staging == None && Saw(before, req, config.pin, use.view.value)
    {
      ghost var mid, h1 := disk.files, disk.history;
      assert req.input in before ==> Get(before, req.input) == Get(mid, req.input);
      result, use := Publish(disk, req, Some(pinFile), tool);
      ghost var late, h2, inside, f := disk.files, disk.history, use, disk.faults;
      assert disk.Clean(Watch(|h2|, late, {pinFile}));
      ghost var stuck;
      stuck := disk.Discard(pinFile);
      assert disk.Clean(Watch(|h2|, late, {pinFile}));
      StillRefused(stuck, disk.faults, |f|, disk.faults, |old(disk.faults)|);
      StillRefused(inside.stuck, f, |old(disk.faults)|, disk.faults, |old(disk.faults)|);
      use := Usage(use.scratch + {pinFile}, use.stuck + stuck, use.view);
      Inside(before, h0, mid, h1, late, h2, disk.files, disk.history, pinFile, stuck,
             req.output, result, inside, tool);
    }

    /** The paths that Sign can use for its files: the PIN file comes first. */
    function Scratch(disk: Disk, pin: seq<Byte>, output: Path, k: nat): set<Path> {
      if pin == [] then {StagingPath(disk, output, k)} else {PINPath(disk, k), StagingPath(disk, output, k + 1)}
    }

    /** The PIN file is made first and removed last; publishing happens inside. */
    method SignWithPIN(disk: Disk, req: Request, tool: Tool) returns (result: SignResult, ghost use: Usage)
      requires disk.Valid() && config.pin != []
      modifies disk
      ensures Fulfils(disk, req.output, Scratch(disk, config.pin, req.output, old(disk.temps)), result, use, tool)
      ensures result.Failed? ==> result.error in {PINFileFailed, StagingFailed, ToolFailed, PublishFailed}
      ensures disk.faults == old(disk.faults) ==> use.view.Some? && result == Verdict(tool(use.view.value))
      ensures disk.Reliable() && Scratch(disk, config.pin, req.output, old(disk.temps)) !! old(disk.files.Keys) ==>
                disk.faults == old(disk.faults)
      ensures req.output in use.scratch ==>
                PINPath(disk, old(disk.temps)) == req.output && req.output !in old(disk.files)
      ensures disk.faults == old(disk.faults) && PINPath(disk, old(disk.temps)) == req.output ==>
                req.output !in old(disk.files) && req.output !in disk.files
      ensures use.view.Some? ==>
                use.view.value.staging == None && Saw(old(disk.files), req, config.pin, use.view.value)
    {
      ghost var before, h0 := disk.files, disk.history;
      ghost var w := Watch(|h0|, before, {});
      var ok, pinFile;
      ghost var stuck;
      ok, pinFile, stuck := WritePINFile(disk, config.pin);
      assert disk.Clean(w.(scratch := w.scratch + Just(pinFile)));
      if !ok {
        return Failed(PINFileFailed), Usage(Just(pinFile), stuck, None);
      }
      assert w.scratch + Just(pinFile) == {pinFile.value};
      ghost var staging := StagingPath(disk, req.output, disk.temps);
      assert staging != pinFile.value && (staging in disk.files ==> staging in before);
      result, use := PublishThenDiscard(disk, req, pinFile.value, tool, before, h0);
    }

    /** withPINFile around publishSigned. Should the PIN file have taken the name of the output, its removal
        takes the signed file away again. */
    method Sign(disk: Disk, req: Option<Request>, tool: Tool) returns (result: SignResult, ghost use: Usage)
      requires disk.Valid()
      modifies disk
      ensures disk.Valid()
      ensures req.None? ==> result == Failed(NilRequest)
      ensures SamePaths(req) ==> result == Failed(SamePath)
      ensures req.Some? && !SamePaths(req) && config.pkcs11Module == "" ==> result == Failed(NoPKCS11Module)
      ensures req.Some? && !SamePaths(req) && config.pkcs11Module != "" && config.certFile == "" ==>
                result == Failed(NoCertFile)
      ensures req.None? || SamePaths(req) || config.pkcs11Module == "" || config.certFile == "" ==>
                disk.files == old(disk.files) && disk.history == old(disk.history) && disk.faults == old(disk.faults)
      ensures req.Some? && !SamePaths(req) && config.pkcs11Module != "" && config.certFile != "" ==>
                var output := req.value.output;
                var names := Scratch(disk, config.pin, output, old(disk.temps));
                && Fulfils(disk, output, names, result, use, tool)
                && (output in use.scratch ==> MayCollide(old(disk.files), output, config.pin))
                && (result.Failed? ==> result.error in {PINFileFailed, StagingFailed, ToolFailed, PublishFailed})
                && (disk.Reliable() && names !! old(disk.files.Keys) ==> disk.faults == old(disk.faults))
                && (disk.faults == old(disk.faults) ==>
                      use.view.Some?
                      && result == if !tool(use.view.value).ok then Failed(ToolFailed)
                                   else if tool(use.view.value).after == None then Failed(PublishFailed) else Signed)
                && (disk.faults == old(disk.faults) ==>
                      disk.files == if config.pin != [] && PINPath(disk, old(disk.temps)) == output
                                    then old(disk.files)
                                    else Final(old(disk.files), output, Published(result, use, tool)))
                && (use.view.Some? ==>
                      use.view.value.staging == None && Saw(old(disk.files), req.value, config.pin, use.view.value))
    {
      var gate := OsslGate(config, req);
      if gate.Some? {
        return Failed(gate.value), Usage({}, {}, None);
      }
      if config.pin == [] {
        result, use := Publish(disk, req.value, None, tool);
        PublishedAlone(old(disk.files), old(disk.history), disk.files, disk.history, req.value.output,
                       result, use, tool);
      } else {
        result, use := SignWithPIN(disk, req.value, tool);
      }
      if disk.faults == old(disk.faults) {
        if config.pin != [] && PINPath(disk, old(disk.temps)) == req.value.output {
          FaultFreeAnyway(old(disk.files), disk.files, disk.history, |old(disk.history)|, req.value.output,
                          None, use, disk.faults);
        } else {
          FaultFree(old(disk.files), disk.files, disk.history, |old(disk.history)|, req.value.output,
                    result, use, tool, disk.faults);
        }
      }
    }
  }

  /** copyFile into the staging file. The data is read after the file has been truncated; a failed copy may
      leave any prefix, a failed close all of it. */
  method CopyFile(disk: Disk, source: Path, staging: Path) returns (ok: bool)
    requires disk.Valid() && staging in disk.files
    modifies disk`files, disk`history, disk`faults, disk`operations
    ensures disk.Touches(staging) && SameOutside(old(disk.files), disk.files, {staging})
    ensures staging in disk.files && (ok ==> source in old(disk.files) && disk.faults == old(disk.faults))
    ensures disk.Steady() && (!ok ==> source !in old(disk.files) || disk.faults != old(disk.faults))
    ensures ok && source != staging ==>
              Get(disk.files, staging) == Some(FileData(old(disk.files)[source].content, old(disk.files)[staging].mode))
  {
    var opens := disk.Attempt();
    if !opens || source !in disk.files {
      return false;
    }
    ok := disk.Truncate(staging, OWNER_ONLY);
    if !ok {
      return;
    }
    var content := disk.Read(source);
    if content.None? {
      return false;
    }
    ok := disk.Write(staging, content.value);
    var closed := disk.Attempt();
    ok := ok && closed;
  }

  class Jsign {
    const config: Config

    constructor (config: Config)
      ensures this.config == WithDefaults(config)
      ensures this.config.pkcs11Module == config.pkcs11Module && this.config.certFile == config.certFile
      ensures this.config.pin == config.pin
      ensures config.healthCommand != [] ==> this.config.healthCommand == config.healthCommand
      ensures config.healthCommand == [] && config.pkcs11Module != "" ==>
                this.config.healthCommand
                == ["pkcs11-tool", "--module", config.pkcs11Module, "--list-objects", "--type", "cert"]
      ensures config.healthCommand == [] && config.pkcs11Module == "" ==> this.config.healthCommand == []
    {
      this.config := WithDefaults(config);
    }

    /** The function passed to withPINFile, with the making and the removal of that file. */
    method RunWithPIN(disk: Disk, staging: Path, req: Request, tool: Tool)
      returns (failure: Option<SignError>, view: Option<ToolView>, pinFile: Option<Path>, ghost stuck: set<Path>)
      requires disk.Valid() && staging in disk.files
      modifies disk
      ensures disk.Valid() && old(disk.history) <= disk.history
      ensures forall w :: old(disk.Clean(w)) && staging in w.scratch ==>
                disk.Clean(w.(scratch := w.scratch + Just(pinFile)))
      ensures failure == if view.None? then Some(PINFileFailed)
                         else if tool(view.value).ok then None else Some(ToolFailed)
      ensures pinFile.Some? ==> pinFile.value !in old(disk.files) && config.pin != []
      ensures pinFile.Some? ==> pinFile.value == PINPath(disk, old(disk.temps))
      ensures stuck <= Just(pinFile) && (pinFile.Some? && pinFile.value in disk.files ==> pinFile.value in stuck)
      ensures old(disk.faults) <= disk.faults && AllRefused(stuck, disk.faults, |old(disk.faults)|)
      ensures disk.Reliable() && (config.pin != [] ==> PINPath(disk, old(disk.temps)) !in old(disk.files)) ==>
                disk.faults == old(disk.faults)
      ensures disk.faults == old(disk.faults) ==> view.Some?
      ensures SameOutside(old(disk.files), disk.files, {staging} + Just(pinFile))
      ensures view.Some? ==> Get(disk.files, staging) == tool(view.value).after
      ensures view.Some? ==> view.value.staging == Some(old(disk.files)[staging])
      ensures view.Some? ==> view.value.pin == PINFile(config.pin)
      ensures view.Some? && req.input in old(disk.files) ==> view.value.input == Some(old(disk.files)[req.input])
    {
      var ok;
      ghost var w := Watch(|disk.history|, disk.files, {staging});
      ok, pinFile, stuck := WritePINFile(disk, config.pin);
      assert disk.Clean(w.(scratch := w.scratch + Just(pinFile)));
      if !ok {
        return Some(PINFileFailed), None, pinFile, stuck;
      }
      var found := ToolView(Get(disk.files, staging), Get(disk.files, req.input),
                            if pinFile.Some? then Get(disk.files, pinFile.value) else None);
      disk.RunTool(staging, tool(found));
      if pinFile.Some? {
        stuck := disk.Discard(pinFile.value);
      }
      return if tool(found).ok then None else Some(ToolFailed), Some(found), pinFile, stuck;
    }

    /** The function passed to publishSigned: the copy, then the tool. */
    method WriteStaging(disk: Disk, staging: Path, req: Request, tool: Tool)
      returns (failure: Option<SignError>, view: Option<ToolView>, pinFile: Option<Path>, ghost stuck: set<Path>)
      requires disk.Valid() && staging in disk.files && disk.files[staging].mode == OWNER_ONLY
      modifies disk
      ensures disk.Valid() && old(disk.history) <= disk.history
      ensures forall w :: old(disk.Clean(w)) && staging in w.scratch ==>
                disk.Clean(w.(scratch := w.scratch + Just(pinFile)))
      ensures failure in if view.None? then {Some(CopyFailed), Some(PINFileFailed)}
                         else if tool(view.value).ok then {None} else {Some(ToolFailed)}
      ensures pinFile.Some? ==> pinFile.value !in old(disk.files) && config.pin != []
      ensures pinFile.Some? ==> pinFile.value == PINPath(disk, old(disk.temps))
      ensures stuck <= Just(pinFile) && (pinFile.Some? && pinFile.value in disk.files ==> pinFile.value in stuck)
      ensures view.Some? ==> Get(disk.files, staging) == tool(view.value).after
      ensures view.Some? && req.input != staging ==> Saw(old(disk.files), req, config.pin, view.value)
      ensures view.Some? && req.input != staging && req.input in old(disk.files) ==>
                view.value.staging == Some(FileData(old(disk.files)[req.input].content, OWNER_ONLY))
      ensures disk.Reliable() && (config.pin != [] ==> PINPath(disk, old(disk.temps)) !in old(disk.files)) ==>
                disk.faults == old(disk.faults)
      ensures view.Some? ==> view.value.pin == PINFile(config.pin)
      ensures old(disk.faults) <= disk.faults && AllRefused(stuck, disk.faults, |old(disk.faults)|)
      ensures disk.faults == old(disk.faults) && view.None? ==>
                failure == Some(CopyFailed) && req.input !in old(disk.files)
    {
      var copied := CopyFile(disk, req.input, staging);
      assert req.input != staging ==> Get(old(disk.files), req.input) == Get(disk.files, req.input);
      ghost var pinPath := PINPath(disk, disk.temps);
      assert pinPath != staging ==> Get(old(disk.files), pinPath) == Get(disk.files, pinPath);
      if !copied {
        assert forall w: Watch :: w.(scratch := w.scratch + Just(None)) == w;
        return Some(CopyFailed), None, None, {};
      }
      ghost var f := disk.faults;
      failure, view, pinFile, stuck := RunWithPIN(disk, staging, req, tool);
      StillRefused(stuck, disk.faults, |f|, disk.faults, |old(disk.faults)|);
    }

    /** The paths that Sign can use for its files: the staging file comes first. */
    function Scratch(disk: Disk, pin: seq<Byte>, output: Path, k: nat): set<Path> {
      if pin == [] then {StagingPath(disk, output, k)} else {StagingPath(disk, output, k), PINPath(disk, k + 1)}
    }

    /** publishSigned up to its rename. */
    method Stage(disk: Disk, req: Request, tool: Tool)
      returns (failure: Option<SignError>, staging: Option<Path>, ghost use: Usage)
      requires disk.Valid()
      modifies disk
      ensures disk.Valid() && old(disk.history) <= disk.history
      ensures disk.Clean(Watch(|old(disk.history)|, old(disk.files), use.scratch))
      ensures use.stuck <= use.scratch && Just(staging) <= use.scratch
      ensures staging.Some? ==> staging.value == StagingPath(disk, req.output, old(disk.temps))
      ensures disk.Reliable() && Scratch(disk, config.pin, req.output, old(disk.temps)) !! old(disk.files.Keys) ==>
                disk.faults == old(disk.faults)
      ensures use.scratch <= Scratch(disk, config.pin, req.output, old(disk.temps))
      ensures forall p :: p in use.scratch ==> p !in old(disk.files)
      ensures forall p :: p in use.scratch && p in disk.files && staging != Some(p) ==> p in use.stuck
      ensures staging.None? ==> failure == Some(StagingFailed) && disk.faults != old(disk.faults)
      ensures old(disk.faults) <= disk.faults && AllRefused(use.stuck, disk.faults, |old(disk.faults)|)
      ensures disk.faults == old(disk.faults) && use.view.None? ==>
                failure == Some(CopyFailed) && req.input !in old(disk.files)
      ensures use.view.Some? && !tool(use.view.value).ok ==> failure == Some(ToolFailed)
      ensures use.view.Some? && tool(use.view.value).ok ==> failure == None
      ensures failure.Some? ==> failure.value in {StagingFailed, CopyFailed, PINFileFailed, ToolFailed}
      ensures failure.None? ==> use.view.Some? && tool(use.view.value).ok
                                && Get(disk.files, staging.value) == tool(use.view.value).after
      ensures use.view.Some? ==> Saw(old(disk.files), req, config.pin, use.view.value)
      ensures use.view.Some? && req.input in old(disk.files) ==>
                use.view.value.staging == Some(FileData(old(disk.files)[req.input].content, OWNER_ONLY))
    {
      ghost var w := Watch(|disk.history|, disk.files, {});
      var ok;
      ghost var stuck;
      ok, staging, stuck := OpenStaging(disk, req.output);
      use := Usage(Just(staging), stuck, None);
      assert disk.Clean(w.(scratch := w.scratch + Just(staging)));
      if !ok {
        return Some(StagingFailed), None, use;
      }
      assert w.scratch + Just(staging) == {staging.value} && PINPath(disk, disk.temps) != staging.value;
      ghost var f := disk.faults;
      failure, use := Fill(disk, staging.value, req, tool, old(disk.files), old(disk.history));
      StillRefused(use.stuck, disk.faults, |f|, disk.faults, |old(disk.faults)|);
    }

    /** The rest of it, with an empty staging file in place. */
    method Fill(disk: Disk, staging: Path, req: Request, tool: Tool, ghost before: Files, ghost h0: seq<Files>)
      returns (failure: Option<SignError>, ghost use: Usage)
      requires disk.Clean(Watch(|h0|, before, {staging})) && h0 <= disk.history && staging !in before
      requires disk.files == before[staging := FileData([], OWNER_ONLY)] && PINPath(disk, disk.temps) != staging
      modifies disk
      ensures disk.Valid() && old(disk.history) <= disk.history
      ensures disk.Clean(Watch(|h0|, before, use.scratch))
      ensures use.stuck <= use.scratch && staging in use.scratch
      ensures disk.Reliable() && (config.pin != [] ==> PINPath(disk, old(disk.temps)) !in before) ==>
                disk.faults == old(disk.faults)
      ensures use.scratch <= {staging} + if config.pin == [] then {} else {PINPath(disk, old(disk.temps))}
      ensures forall p :: p in use.scratch ==> p !in before && (p in disk.files && p != staging ==> p in use.stuck)
      ensures old(disk.faults) <= disk.faults && AllRefused(use.stuck, disk.faults, |old(disk.faults)|)
      ensures disk.faults == old(disk.faults) && use.view.None? ==> failure == Some(CopyFailed) && req.input !in before
      ensures failure in if use.view.None? then {Some(CopyFailed), Some(PINFileFailed)}
                         else if tool(use.view.value).ok then {None} else {Some(ToolFailed)}
      ensures use.view.Some? ==> Get(disk.files, staging) == tool(use.view.value).after
      ensures use.view.Some? ==> Saw(before, req, config.pin, use.view.value)
      ensures use.view.Some? && req.input in before ==>
                use.view.value.staging == Some(FileData(before[req.input].content, OWNER_ONLY))
    {
      ghost var w := Watch(|h0|, before, {staging});
      var view, pinFile;
      ghost var stuck;
      failure, view, pinFile, stuck := WriteStaging(disk, staging, req, tool);
      use := Usage({staging} + Just(pinFile), stuck, view);
      assert disk.Clean(w.(scratch := w.scratch + Just(pinFile)));
    }

    method Publish(disk: Disk, req: Request, tool: Tool) returns (result: SignResult, ghost use: Usage)
      requires disk.Valid()
      modifies disk
      ensures disk.Valid() && old(disk.history) <= disk.history
      ensures req.output !in use.scratch ==>
                PublishedBy(old(disk.files), disk.files, old(disk.history), disk.history, req.output, result, use, tool)
      ensures disk.Reliable() && Scratch(disk, config.pin, req.output, old(disk.temps)) !! old(disk.files.Keys) ==>
                disk.faults == old(disk.faults)
      ensures result.Failed? ==> forall p :: p in use.scratch && p in disk.files ==> p in use.stuck
      ensures use.scratch <= Scratch(disk, config.pin, req.output, old(disk.temps))
      ensures Confined(old(disk.files), disk.files, disk.history, |old(disk.history)|, req.output, use)
      ensures result.Signed? ==> use.view.Some? && Get(disk.files, req.output) == tool(use.view.value).after
      ensures old(disk.faults) <= disk.faults && AllRefused(use.stuck, disk.faults, |old(disk.faults)|)
      ensures disk.faults == old(disk.faults) ==>
                if use.view.Some? then result == Verdict(tool(use.view.value))
                else result == Failed(CopyFailed) && req.input !in old(disk.files)
      ensures result.Failed? ==> result.error in {StagingFailed, CopyFailed, PINFileFailed, ToolFailed, PublishFailed}
      ensures use.view.Some? ==> Saw(old(disk.files), req, config.pin, use.view.value)
      ensures use.view.Some? && req.input in old(disk.files) ==>
                use.view.value.staging == Some(FileData(old(disk.files)[req.input].content, OWNER_ONLY))
    {
      var failure, staging;
      failure, staging, use := Stage(disk, req, tool);
      if staging.None? {
        assert disk.history[..|disk.history|] == disk.history;
        return Failed(failure.value), use;
      }
      result, use := CloseStaging(disk, staging.value, req.output, failure, old(disk.files), old(disk.history),
                                  old(disk.faults), use, tool);
    }

    /** Publishing outside, the copy, then the PIN file inside. The rename comes last, so the output holds what
        the tool left even if the PIN file once had its name. */
    method Sign(disk: Disk, req: Option<Request>, tool: Tool) returns (result: SignResult, ghost use: Usage)
      requires disk.Valid()
      modifies disk
      ensures disk.Valid()
      ensures req.None? ==> result == Failed(NilRequest)
      ensures SamePaths(req) ==> result == Failed(SamePath)
      ensures req.Some? && !SamePaths(req) && config.certFile == "" ==> result == Failed(NoCertFile)
      ensures req.None? || SamePaths(req) || config.certFile == "" ==>
                disk.files == old(disk.files) && disk.history == old(disk.history) && disk.faults == old(disk.faults)
      ensures req.Some? && !SamePaths(req) && config.certFile != "" ==>
                var output, input, before := req.value.output, req.value.input, old(disk.files);
                var names := Scratch(disk, config.pin, output, old(disk.temps));
                && Fulfils(disk, output, names, result, use, tool)
                && (disk.Reliable() && names !! old(disk.files.Keys) ==> disk.faults == old(disk.faults))
                && (output in use.scratch ==> MayCollide(before, output, config.pin))
                && (result.Failed? ==>
                      result.error in {StagingFailed, CopyFailed, PINFileFailed, ToolFailed, PublishFailed})
                && (disk.faults == old(disk.faults) ==>
                      if use.view.None? then result == Failed(CopyFailed) && input !in before
                      else result == if !tool(use.view.value).ok then Failed(ToolFailed)
                                     else if tool(use.view.value).after == None then Failed(PublishFailed) else Signed)
                && (disk.faults == old(disk.faults) ==>
                      disk.files == Final(before, output, Published(result, use, tool)))
                && (result.Signed? ==> use.view.Some? && Get(disk.files, output) == tool(use.view.value).after)
                && (use.view.Some? ==> Saw(before, req.value, config.pin, use.view.value))
                && (use.view.Some? && input in before ==>
                      use.view.value.staging == Some(FileData(before[input].content, 0x180)))
    {
      var gate := JsignGate(config, req);
      if gate.Some? {
        return Failed(gate.value), Usage({}, {}, None);
      }
      result, use := Publish(disk, req.value, tool);
      if req.value.output !in use.scratch {
        PublishedAlone(old(disk.files), old(disk.history), disk.files, disk.history, req.value.output,
                       result, use, tool);
      }
      if disk.faults == old(disk.faults) {
        if req.value.output !in use.scratch {
          FaultFree(old(disk.files), disk.files, disk.history, |old(disk.history)|, req.value.output,
                    result, use, tool, disk.faults);
        } else {
          FaultFreeAnyway(old(disk.files), disk.files, disk.history, |old(disk.history)|, req.value.output,
                          Published(result, use, tool), use, disk.faults);
        }
      }
    }
  }

  /** A witness for the contract of OSSLSigncode.Sign: for every output that meets MayCollide there is a disk, on
      which nothing fails, whose draws make a success lose the output. (`staging` is any free name.) */
  method OutputIsLost(cfg: Config, req: Request, files: Files, tool: Tool, pin: Draw, staging: Draw)
    returns (disk: Disk, result: SignResult)
    requires OsslGate(cfg, Some(req)).None? && MayCollide(files, req.output, cfg.pin)
    requires req.output == TempPath(TEMP_DIR, PIN_PREFIX, pin)
    requires TempPath(req.output.dir, StagingPrefix(req.output), staging) !in files
    requires forall view :: tool(view).ok && tool(view).after.Some?
    ensures result == Signed && disk.faults == [] && disk.files == files && req.output !in files
  {
    var signer := new OSSLSigncode(cfg);
    disk := new Disk(files, k => if k == 0 then pin else staging, k => false);
    ghost var use;
    result, use := signer.Sign(disk, Some(req), tool);
  }
}
