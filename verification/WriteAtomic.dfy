/** The client's side of a signed file: written next to the output path and renamed into place. */
module WriteAtomic {
  import opened Common
  import opened Disk

  /** fs.FileMode.Perm keeps the nine permission bits. */
  function Perm(mode: nat): nat {
    mode % 0x200
  }

  /** The mode of the replaced file, else of the input, else owner only. */
  function ModeRule(files: Files, input: Path, output: Path): nat {
    if output in files then Perm(files[output].mode)
    else if input in files then Perm(files[input].mode)
    else OWNER_ONLY
  }

  /** The modes that the rule can come to when a file cannot be examined. */
  ghost predicate SomeMode(files: Files, input: Path, output: Path, mode: nat) {
    mode == OWNER_ONLY || exists p :: p in files && p in {input, output} && mode == Perm(files[p].mode)
  }

  method OutputMode(disk: Disk, input: Path, output: Path) returns (mode: nat)
    requires disk.Valid()
    modifies disk`faults, disk`operations
    ensures disk.TouchesNothing()
    ensures disk.faults == old(disk.faults) ==> mode == ModeRule(disk.files, input, output)
    ensures SomeMode(disk.files, input, output, mode)
  {
    var info := disk.Stat(output);
    if info.None? {
      info := disk.Stat(input);
    }
    mode := if info.Some? then Perm(info.value) else OWNER_ONLY;
  }

  /** The temporary path is not the output: its name is longer. */
  function TempFile(disk: Disk, output: Path, k: nat): (p: Path)
    ensures p.dir == output.dir && p != output && p.base == output.base + ".signing-" + Decimal(disk.draws(k))
  {
    var p := disk.Temp(k, output.dir, output.base + ".signing-");
    assert |p.base| > |output.base|;
    p
  }

  /** A temporary file with the signed bytes and the final mode. */
  method Prepare(disk: Disk, signed: seq<Byte>, input: Path, output: Path)
    returns (ok: bool, temp: Option<Path>, ghost mode: nat)
    requires disk.Valid()
    modifies disk
    ensures disk.Valid() && old(disk.history) <= disk.history && old(disk.faults) <= disk.faults
    ensures forall w :: old(disk.Clean(w)) ==> disk.Clean(w.(scratch := w.scratch + Just(temp)))
    ensures temp.Some? ==> temp.value !in old(disk.files) && temp.value == TempFile(disk, output, old(disk.temps))
    ensures ok ==> temp.Some? && Get(disk.files, temp.value) == Some(FileData(signed, mode))
    ensures ok ==> SomeMode(old(disk.files), input, output, mode)
    ensures disk.faults == old(disk.faults) ==> ok && mode == ModeRule(old(disk.files), input, output)
    ensures disk.Reliable() && TempFile(disk, output, old(disk.temps)) !in old(disk.files) ==> ok
  {
    ok, mode := false, OWNER_ONLY;
    temp := disk.CreateTemp(output.dir, output.base + ".signing-");
    if temp.None? {
      assert forall w: Watch :: w.(scratch := w.scratch + Just(temp)) == w;
      return;
    }
    ok := disk.Write(temp.value, signed);
    var closed := disk.Attempt();
    ok := ok && closed;
    if ok {
      assert SameOutside(old(disk.files), disk.files, {temp.value});
      assert Perm(OWNER_ONLY) == OWNER_ONLY;
      var picked := OutputMode(disk, input, output);
      mode := picked;
      ok := disk.Chmod(temp.value, picked);
    }
  }

  /** writeAtomic: nil exactly when the signed bytes were published, and always when nothing fails. */
  method WriteAtomic(disk: Disk, signed: seq<Byte>, input: Path, output: Path)
    returns (ok: bool, ghost mode: nat, ghost scratch: set<Path>, ghost stuck: set<Path>)
    requires disk.Valid()
    modifies disk
    ensures disk.Valid() && old(disk.history) <= disk.history && old(disk.faults) <= disk.faults
    ensures Replaces(old(disk.files), disk.files, disk.history, |old(disk.history)|, output,
                     if ok then Some(FileData(signed, mode)) else None, scratch, stuck)
    ensures ok ==> SomeMode(old(disk.files), input, output, mode) && stuck == {}
    ensures scratch <= {TempFile(disk, output, old(disk.temps))} && AllRefused(stuck, disk.faults, |old(disk.faults)|)
    ensures disk.Reliable() && TempFile(disk, output, old(disk.temps)) !in old(disk.files) ==> ok
    ensures disk.faults == old(disk.faults) ==> ok && mode == ModeRule(old(disk.files), input, output)
    ensures disk.faults == old(disk.faults) ==>
              mode == if output in old(disk.files) then old(disk.files)[output].mode % 512
                      else if input in old(disk.files) then old(disk.files)[input].mode % 512 else 0x180
    ensures ok ==> Get(disk.files, output) == Some(FileData(signed, mode))
    ensures !ok ==> Get(disk.files, output) == Get(old(disk.files), output)
  {
    ghost var w := Watch(|disk.history|, disk.files, {});
    var temp;
    ok, temp, mode := Prepare(disk, signed, input, output);
    scratch, stuck := Just(temp), {};
    w := w.(scratch := w.scratch + scratch);
    assert disk.Clean(w);
    if temp.None? {
      return;
    }
    if ok {
      ok := disk.Rename(temp.value, output);
    }
    if !ok {
      ghost var f := disk.faults;
      stuck := disk.Discard(temp.value);
      StillRefused(stuck, disk.faults, |f|, disk.faults, |old(disk.faults)|);
      assert disk.Clean(w);
    }
  }
}
