/** A file system whose every operation may fail, with the record of all states a crash could expose. */
module Disk {
  import opened Common

  /** Hard and symbolic links are not modelled: a path names one file. */
  datatype Path = Path(dir: string, base: string)

  datatype FileData = FileData(content: seq<Byte>, mode: nat)

  type Files = map<Path, FileData>

  const OWNER_ONLY: nat := 0x180   // 0600

  function Get(files: Files, p: Path): Option<FileData> {
    if p in files then Some(files[p]) else None
  }

  /** The two states agree on every path that is not a scratch path. */
  ghost predicate SameOutside(a: Files, b: Files, scratch: set<Path>) {
    forall p :: p !in scratch ==> Get(a, p) == Get(b, p)
  }

  /** An observer: since entry `from` of the history, only the scratch paths have differed from `before`. */
  datatype Watch = Watch(from: nat, before: Files, scratch: set<Path>)

  ghost predicate Kept(history: seq<Files>, w: Watch) {
    forall k :: w.from <= k < |history| ==> SameOutside(w.before, history[k], w.scratch)
  }

  function Just<T>(x: Option<T>): set<T> {
    if x.Some? then {x.value} else {}
  }

  /** What a disk should hold in the end, the scratch paths aside. */
  function Final(before: Files, output: Path, published: Option<FileData>): Files {
    if published.Some? then before[output := published.value] else before
  }

  /** At every recorded instant the disk was, scratch paths aside, in its first or its last state. */
  ghost predicate Atomic(history: seq<Files>, from: nat, before: Files, after: Files, scratch: set<Path>) {
    forall k :: from <= k < |history| ==>
      SameOutside(before, history[k], scratch) || SameOutside(after, history[k], scratch)
  }

  /** Scratch paths were free, are not the output, and are free again unless a removal failed. */
  ghost predicate Tidy(before: Files, after: Files, output: Path, scratch: set<Path>, stuck: set<Path>) {
    && output !in scratch && stuck <= scratch
    && forall p :: p in scratch ==> p !in before && (p in after ==> p in stuck)
  }

  /** Replacing the output, as seen in the states recorded from `from` on: the output holds the published
      file and all else is as before, or nothing was published and all is as before. */
  ghost predicate Replaces(before: Files, after: Files, history: seq<Files>, from: nat, output: Path,
                           published: Option<FileData>, scratch: set<Path>, stuck: set<Path>) {
    && SameOutside(Final(before, output, published), after, scratch)
    && Atomic(history, from, before, Final(before, output, published), scratch)
    && Tidy(before, after, output, scratch, stuck)
  }

  lemma FilesFromGet(a: Files, b: Files)
    requires forall p :: Get(a, p) == Get(b, p)
    ensures a == b
  {
    assert forall p :: p in a ==> Get(a, p) == Some(a[p]) && p in b && b[p] == a[p];
    assert forall p :: p in b ==> Get(b, p) == Some(b[p]) && p in a;
  }

  /** When every temporary file could be removed, nothing but the output has changed. */
  lemma NothingElseChanged(before: Files, after: Files, history: seq<Files>, from: nat, output: Path,
                           published: Option<FileData>, scratch: set<Path>)
    requires Replaces(before, after, history, from, output, published, scratch, {})
    ensures published.None? ==> after == before
    ensures published.Some? ==> after == before[output := published.value]
  {
    FilesFromGet(after, Final(before, output, published));
  }

  /** Whenever the machine stops, every file that existed before is whole: the output has its old content
      or the published one, and all others are untouched. */
  lemma EveryInstantIsWhole(before: Files, after: Files, history: seq<Files>, from: nat, output: Path,
                            published: Option<FileData>, scratch: set<Path>, stuck: set<Path>, k: nat, p: Path)
    requires Replaces(before, after, history, from, output, published, scratch, stuck)
    requires from <= k < |history| && (p in before || p == output)
    ensures Get(history[k], p) == Get(before, p) || (p == output && published.Some? && Get(history[k], p) == published)
  {
    assert p !in scratch;
  }

  /** What a signing tool leaves at the path it was given, and whether it reports success. */
  datatype ToolResult = ToolResult(after: Option<FileData>, ok: bool)

  /** The random part of a temporary name: a 32-bit number, in decimal. */
  type Draw = n: nat | n < 0x1_0000_0000

  function Decimal(n: nat): string {
    if n < 10 then [DIGITS[n]] else Decimal(n / 10) + [DIGITS[n % 10]]
  }

  const DIGITS: string := "0123456789"

  function TempPath(dir: string, prefix: string, draw: Draw): Path {
    Path(dir, prefix + Decimal(draw))
  }

  /** Something that went wrong: the removal of a file that was there, or anything else. */
  datatype Fault = Refused(path: Path) | OtherFault

  /** Each of the files could not be removed at some point since entry `from` of the faults. */
  ghost predicate AllRefused(stuck: set<Path>, faults: seq<Fault>, from: nat) {
    forall p :: p in stuck ==> exists i :: from <= i < |faults| && faults[i] == Refused(p)
  }

  lemma StillRefused(stuck: set<Path>, faults: seq<Fault>, from: nat, faults': seq<Fault>, from': nat)
    requires AllRefused(stuck, faults, from) && faults <= faults' && from' <= from
    ensures AllRefused(stuck, faults', from')
  {
    forall p | p in stuck ensures exists i :: from' <= i < |faults'| && faults'[i] == Refused(p) {
      var i :| from <= i < |faults| && faults[i] == Refused(p);
      assert faults'[i] == Refused(p);
    }
  }

  /** The two constants decide everything that is left to chance: the name that the k-th call of CreateTemp
      settles on, and whether the k-th operation fails. */
  class Disk {
    const draws: nat -> Draw
    const fails: nat -> bool
    var files: Files
    var temps: nat
    var operations: nat
    /** Every state the disk has been in, the present one last. */
    ghost var history: seq<Files>
    /** Everything that has gone wrong. */
    ghost var faults: seq<Fault>

    ghost predicate Reliable() {
      forall k: nat :: !fails(k)
    }

    /** The path that call `k` of CreateTemp settles on. */
    function Temp(k: nat, dir: string, prefix: string): Path {
      TempPath(dir, prefix, draws(k))
    }

    ghost predicate Valid()
      reads this`files, this`history
    {
      history != [] && history[|history| - 1] == files
    }

    ghost predicate Clean(w: Watch)
      reads this`files, this`history
    {
      Valid() && w.from <= |history| && Kept(history, w) && SameOutside(w.before, files, w.scratch)
    }

    /** A change of `p` alone is clean for every observer to whom `p` is scratch. */
    twostate predicate Touches(p: Path)
      reads this
    {
      old(history) <= history && Steady() && Valid()
      && forall w :: old(Clean(w)) && p in w.scratch ==> Clean(w)
    }

    /** Faults are only added, and never on a reliable disk. */
    twostate predicate Steady()
      reads this
    {
      old(faults) <= faults && (Reliable() ==> faults == old(faults))
    }

    twostate predicate TouchesNothing()
      reads this
    {
      old(history) == history && Steady() && files == old(files) && Valid()
    }

    constructor (files: Files, draws: nat -> Draw, fails: nat -> bool)
      ensures Valid() && this.files == files && history == [files] && faults == [] && temps == 0
      ensures this.draws == draws && this.fails == fails
    {
      this.files, this.draws, this.fails := files, draws, fails;
      temps, operations := 0, 0;
      history, faults := [files], [];
    }

    /** Anything can go wrong. */
    method Succeeds(fault: Fault) returns (ok: bool)
      modifies this`faults, this`operations
      ensures faults == old(faults) + (if ok then [] else [fault]) && Steady()
    {
      ok := !fails(operations);
      operations := operations + 1;
      if !ok {
        faults := faults + [fault];
      }
    }

    method Put(p: Path, file: FileData)
      requires Valid()
      modifies this`files, this`history
      ensures Touches(p) && files == old(files)[p := file] && faults == old(faults)
    {
      files := files[p := file];
      history := history + [files];
    }

    method Drop(p: Path)
      requires Valid()
      modifies this`files, this`history
      ensures Touches(p) && files == old(files) - {p} && faults == old(faults)
    {
      files := files - {p};
      history := history + [files];
    }

    /** os.CreateTemp(dir, prefix + "*"): an empty file of mode 0600 at a path that was free. Names that were
        taken are drawn again; giving up on a taken name is a fault. */
    method CreateTemp(dir: string, prefix: string) returns (p: Option<Path>)
      requires Valid()
      modifies this
      ensures temps == old(temps) + 1
      ensures p.None? ==> files == old(files) && history == old(history) && old(faults) < faults && Valid()
      ensures p.Some? ==> p.value == Temp(old(temps), dir, prefix) && p.value !in old(files)
      ensures p.Some? ==> Touches(p.value) && files == old(files)[p.value := FileData([], OWNER_ONLY)]
      ensures p.Some? ==> faults == old(faults)
      ensures p.Some? ==> forall w :: old(Clean(w)) ==> Clean(w.(scratch := w.scratch + {p.value}))
      ensures Reliable() && Temp(old(temps), dir, prefix) !in old(files) ==> p.Some?
    {
      var path := Temp(temps, dir, prefix);
      temps := temps + 1;
      var ok := Succeeds(OtherFault);
      if !ok {
        return None;
      }
      if path in files {
        faults := faults + [OtherFault];
        return None;
      }
      label before:
      Put(path, FileData([], OWNER_ONLY));
      forall w | old@before(Clean(w)) ensures Clean(w.(scratch := w.scratch + {path})) {
        var w' := w.(scratch := w.scratch + {path});
        assert old@before(Clean(w'));
        assert Clean(w');
      }
      return Some(path);
    }

    /** An operation that leaves every file as it is, such as opening or closing one. */
    method Attempt() returns (ok: bool)
      requires Valid()
      modifies this`faults, this`operations
      ensures TouchesNothing() && (ok <==> faults == old(faults))
    {
      ok := Succeeds(OtherFault);
    }

    /** Writing `data` to a file just created or truncated. A failure may leave any prefix. */
    method Write(p: Path, data: seq<Byte>) returns (ok: bool)
      requires Valid() && p in files
      modifies this`files, this`history, this`faults, this`operations
      ensures Touches(p) && p in files && (ok <==> faults == old(faults))
      ensures exists n: nat :: n <= |data| && files == old(files)[p := FileData(data[..n], old(files)[p].mode)]
      ensures ok ==> files == old(files)[p := FileData(data, old(files)[p].mode)]
    {
      var n: nat :| n <= |data|;
      Put(p, FileData(data[..n], files[p].mode));
      ok := Succeeds(OtherFault);
      if ok {
        Put(p, FileData(data, files[p].mode));
        assert data[..|data|] == data;
      }
    }

    method Read(p: Path) returns (content: Option<seq<Byte>>)
      requires Valid()
      modifies this`faults, this`operations
      ensures TouchesNothing()
      ensures content.Some? ==> p in files && content.value == files[p].content && faults == old(faults)
      ensures content.None? ==> p !in files || faults != old(faults)
    {
      var ok := Succeeds(OtherFault);
      return if ok && p in files then Some(files[p].content) else None;
    }

    /** os.Stat, for the mode. */
    method Stat(p: Path) returns (mode: Option<nat>)
      requires Valid()
      modifies this`faults, this`operations
      ensures TouchesNothing()
      ensures mode.Some? ==> p in files && mode.value == files[p].mode && faults == old(faults)
      ensures mode.None? ==> p !in files || faults != old(faults)
    {
      var ok := Succeeds(OtherFault);
      return if ok && p in files then Some(files[p].mode) else None;
    }

    method Remove(p: Path) returns (ok: bool)
      requires Valid()
      modifies this`files, this`history, this`faults, this`operations
      ensures ok ==> Touches(p) && p in old(files) && files == old(files) - {p} && faults == old(faults)
      ensures !ok ==> TouchesNothing() && faults == old(faults) + (if p in files then [Refused(p)] else [])
    {
      ok := p in files;
      if ok {
        ok := Succeeds(Refused(p));
        if ok {
          Drop(p);
        }
      }
    }

    /** os.Remove with its error ignored; `stuck` is the file if it is still there. */
    method Discard(p: Path) returns (ghost stuck: set<Path>)
      requires Valid()
      modifies this`files, this`history, this`faults, this`operations
      ensures Touches(p) && files in {old(files), old(files) - {p}}
      ensures stuck == if p in files then {p} else {}
      ensures stuck == {} ==> faults == old(faults)
      ensures AllRefused(stuck, faults, |old(faults)|)
    {
      var removed := Remove(p);
      stuck := if p in files then {p} else {};
      if p in files {
        assert faults[|old(faults)|] == Refused(p);
      }
    }

    method Chmod(p: Path, mode: nat) returns (ok: bool)
      requires Valid()
      modifies this`files, this`history, this`faults, this`operations
      ensures ok ==> Touches(p) && p in old(files) && files == old(files)[p := FileData(old(files)[p].content, mode)]
      ensures ok ==> faults == old(faults)
      ensures !ok ==> TouchesNothing() && (p !in files || faults != old(faults))
    {
      ok := Succeeds(OtherFault);
      ok := ok && p in files;
      if ok {
        Put(p, FileData(files[p].content, mode));
      }
    }

    /** os.OpenFile for writing with O_CREATE and O_TRUNC. */
    method Truncate(p: Path, mode: nat) returns (ok: bool)
      requires Valid()
      modifies this`files, this`history, this`faults, this`operations
      ensures ok ==> Touches(p)
      ensures ok ==> files == old(files)[p := FileData([], if p in old(files) then old(files)[p].mode else mode)]
      ensures !ok ==> TouchesNothing()
      ensures ok <==> faults == old(faults)
    {
      ok := Succeeds(OtherFault);
      if ok {
        Put(p, FileData([], if p in files then files[p].mode else mode));
      }
    }

    /** os.Rename replaces the target in one step. */
    method Rename(from: Path, to: Path) returns (ok: bool)
      requires Valid()
      modifies this`files, this`history, this`faults, this`operations
      ensures ok ==> from in old(files) && files == (old(files) - {from})[to := old(files)[from]]
      ensures ok ==> Valid() && history == old(history) + [files] && faults == old(faults)
      ensures !ok ==> TouchesNothing() && (from !in files || faults != old(faults))
    {
      ok := Succeeds(OtherFault);
      ok := ok && from in files;
      if ok {
        files := (files - {from})[to := files[from]];
        history := history + [files];
      }
    }

    /** The tool may write its file any number of times before it stops. */
    method RunTool(p: Path, result: ToolResult)
      requires Valid()
      modifies this`files, this`history, this`faults, this`operations
      ensures Touches(p) && Get(files, p) == result.after && SameOutside(old(files), files, {p})
      ensures faults == old(faults)
    {
      var writes: nat :| true;
      while writes > 0
        invariant Touches(p) && SameOutside(old(files), files, {p}) && faults == old(faults)
      {
        var partial: seq<Byte> :| true;
        Put(p, FileData(partial, OWNER_ONLY));
        writes := writes - 1;
      }
      match result.after
      case Some(file) => Put(p, file);
      case None => Drop(p);
    }
  }
}
