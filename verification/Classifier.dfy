/** The upload gate: PE images and Windows Installer compound files, told apart by their bytes.

    Formats: Microsoft PE Format, sections "MS-DOS Stub" and "Signature"; [MS-CFB] section 2.1
    (sector numbers), section 2.2 (header) and section 2.6.1 (directory entry).
*/
module Classifier {
  import opened Common

  type File = seq<Byte>

  const EXE: string := ".exe"
  const MSI: string := ".msi"

  /** io.ReaderAt: all `len` bytes at `offset`, or an error. */
  function ReadAt(file: File, offset: int, len: nat): (r: Option<seq<Byte>>)
    ensures r.Some? ==> |r.value| == len
  {
    if 0 <= offset && offset + len <= |file| then Some(file[offset..offset + len]) else None
  }

  /** Little-endian unsigned numbers. */
  function LittleEndian(bytes: seq<Byte>): nat {
    if bytes == [] then 0 else bytes[0] + 256 * LittleEndian(bytes[1..])
  }

  // ---------------------------------------------------------------- the source's functions

  const DOS_HEADER_LEN: nat := 0x40
  const LFANEW_AT: nat := 0x3C
  const PE_SIGNATURE: seq<Byte> := [0x50, 0x45, 0, 0]

  predicate IsPE(file: File) {
    if |file| < DOS_HEADER_LEN then false
    else match ReadAt(file, 0, DOS_HEADER_LEN)
         case None => false
         case Some(dos) =>
           if dos[0] != 0x4D || dos[1] != 0x5A then false
           else
             var lfanew := LittleEndian(dos[LFANEW_AT..LFANEW_AT + 4]);
             match ReadAt(file, lfanew, |PE_SIGNATURE|)
             case None => false
             case Some(signature) => signature == PE_SIGNATURE
  }

  const CFB_MAGIC: seq<Byte> := [0xD0, 0xCF, 0x11, 0xE0, 0xA1, 0xB1, 0x1A, 0xE1]
  const HEADER_LEN: nat := 512
  const SECTOR_SHIFT_AT: nat := 30
  const FIRST_DIR_SECTOR_AT: nat := 48
  const DIR_ENTRY_LEN: nat := 128
  const ROOT_CLSID_AT: nat := 0x50
  const CLSID_LEN: nat := 16
  const MIN_SECTOR_SHIFT: nat := 7
  const MAX_SECTOR_SHIFT: nat := 12
  const FREE_SECTOR: nat := 0xFFFF_FFFF

  function ShiftLeft(n: nat): nat {
    if n == 0 then 1 else 2 * ShiftLeft(n - 1)
  }

  function DirOffset(sector: nat, shift: nat): int {
    (sector + 1) * ShiftLeft(shift)
  }

  function CompoundRootCLSID(file: File): (clsid: Option<seq<Byte>>)
    ensures clsid.Some? ==> |clsid.value| == CLSID_LEN
  {
    if |file| < HEADER_LEN then None
    else match ReadAt(file, 0, HEADER_LEN)
         case None => None
         case Some(header) =>
           var sectorShift := LittleEndian(header[SECTOR_SHIFT_AT..SECTOR_SHIFT_AT + 2]);
           if sectorShift < MIN_SECTOR_SHIFT || sectorShift > MAX_SECTOR_SHIFT then None
           else
             var firstDirSector := LittleEndian(header[FIRST_DIR_SECTOR_AT..FIRST_DIR_SECTOR_AT + 4]);
             if firstDirSector == FREE_SECTOR then None
             else
               var dirOffset := DirOffset(firstDirSector, sectorShift);
               if dirOffset + DIR_ENTRY_LEN > |file| then None
               else match ReadAt(file, dirOffset, DIR_ENTRY_LEN)
                    case None => None
                    case Some(entry) => Some(entry[ROOT_CLSID_AT..ROOT_CLSID_AT + CLSID_LEN])
  }

  const INSTALLER_TAIL: seq<Byte> := [0, 0, 0, 0, 0xC0, 0, 0, 0, 0, 0, 0, 0x46]

  predicate IsInstallerCLSID(clsid: seq<Byte>) {
    && |clsid| == CLSID_LEN
    && LittleEndian(clsid[0..4]) in {0x000C1084, 0x000C1086, 0x000C1082, 0x000C1090}
    && clsid[4..16] == INSTALLER_TAIL
  }

  predicate IsMSI(file: File) {
    match ReadAt(file, 0, |CFB_MAGIC|)
    case None => false
    case Some(signature) =>
      if signature != CFB_MAGIC then false
      else match CompoundRootCLSID(file)
           case None => true
           case Some(clsid) => IsInstallerCLSID(clsid)
  }

  /** The temp-file extension for the upload; None is errNotSignable. */
  function DetectKind(file: File): Option<string> {
    if IsPE(file) then Some(EXE) else if IsMSI(file) then Some(MSI) else None
  }

  // ---------------------------------------------------------------- numbers

  function LittleEndianBytes(n: nat, width: nat): (bytes: seq<Byte>)
    ensures |bytes| == width
  {
    if width == 0 then [] else [n % 256] + LittleEndianBytes(n / 256, width - 1)
  }

  function Power256(width: nat): nat {
    if width == 0 then 1 else 256 * Power256(width - 1)
  }

  lemma {:induction false} LittleEndianRoundTrip(n: nat, width: nat)
    requires n < Power256(width)
    ensures LittleEndian(LittleEndianBytes(n, width)) == n
  {
    if width > 0 {
      LittleEndianRoundTrip(n / 256, width - 1);
      assert LittleEndianBytes(n, width)[1..] == LittleEndianBytes(n / 256, width - 1);
    }
  }

  lemma LowByteFirst(b: Byte, rest: nat, width: nat)
    ensures LittleEndianBytes(b + 256 * rest, width + 1) == [b] + LittleEndianBytes(rest, width)
  {
    assert (b + 256 * rest) % 256 == b && (b + 256 * rest) / 256 == rest;
  }

  lemma {:induction false} BytesRoundTrip(bytes: seq<Byte>)
    ensures LittleEndianBytes(LittleEndian(bytes), |bytes|) == bytes
    ensures LittleEndian(bytes) < Power256(|bytes|)
  {
    if bytes != [] {
      BytesRoundTrip(bytes[1..]);
      LowByteFirst(bytes[0], LittleEndian(bytes[1..]), |bytes| - 1);
      assert bytes == [bytes[0]] + bytes[1..];
    }
  }

  /** The computed offset stays far below the int64 limit, so the Go arithmetic does not wrap. */
  lemma DirOffsetFitsInt64(sector: nat, shift: nat)
    requires sector < FREE_SECTOR && MIN_SECTOR_SHIFT <= shift <= MAX_SECTOR_SHIFT
    ensures DirOffset(sector, shift) + DIR_ENTRY_LEN < 0x2000_0000_0000
  {
    ShiftValues();
    assert ShiftLeft(shift) <= 4096;
    assert (sector + 1) * ShiftLeft(shift) <= FREE_SECTOR * 4096;
  }

  lemma ShiftValues()
    ensures ShiftLeft(7) == 128 && ShiftLeft(8) == 256 && ShiftLeft(9) == 512 && ShiftLeft(10) == 1024
    ensures ShiftLeft(11) == 2048 && ShiftLeft(12) == 4096
  {
  }

  // ---------------------------------------------------------------- PE images

  /** A PE image, told from the outside: "PE\0\0" stands at the offset that the DOS header spells
      in its last four bytes. */
  ghost predicate IsPEImage(file: File) {
    && |file| >= DOS_HEADER_LEN && file[0] == 0x4D && file[1] == 0x5A
    && exists stub: seq<Byte>, rest: seq<Byte> ::
         file == stub + PE_SIGNATURE + rest && file[0x3C..0x40] == LittleEndianBytes(|stub|, 4)
         && |stub| < Power256(4)
  }

  lemma PEIsRecognized(file: File)
    ensures IsPE(file) <==> IsPEImage(file)
  {
    if |file| >= DOS_HEADER_LEN {
      var header := file[0..DOS_HEADER_LEN];
      assert header[LFANEW_AT..LFANEW_AT + 4] == file[0x3C..0x40];
      var lfanew := LittleEndian(file[0x3C..0x40]);
      BytesRoundTrip(file[0x3C..0x40]);
      if IsPE(file) {
        var stub, rest := file[..lfanew], file[lfanew + 4..];
        assert file == stub + PE_SIGNATURE + rest;
      }
      if IsPEImage(file) {
        var stub: seq<Byte>, rest: seq<Byte> :|
          file == stub + PE_SIGNATURE + rest
           && file[0x3C..0x40] == LittleEndianBytes(|stub|, 4) && |stub| < Power256(4);
        LittleEndianRoundTrip(|stub|, 4);
        assert file[|stub|..|stub| + 4] == PE_SIGNATURE;
      }
    }
  }

  // ---------------------------------------------------------------- compound files

  /** The six sector sizes that are accepted, by their binary logarithm. */
  function SectorSize(shift: int): nat {
    if shift == 7 then 128 else if shift == 8 then 256 else if shift == 9 then 512
    else if shift == 10 then 1024 else if shift == 11 then 2048 else if shift == 12 then 4096 else 0
  }

  /** [MS-CFB] section 2.1: sector n lies behind the header's sector and n others. */
  function SectorStart(sector: nat, shift: nat): int {
    SectorSize(shift) + sector * SectorSize(shift)
  }

  lemma OffsetIsStart(sector: nat, shift: nat)
    requires 7 <= shift <= 12
    ensures DirOffset(sector, shift) == SectorStart(sector, shift)
  {
    ShiftValues();
    assert ShiftLeft(shift) == SectorSize(shift);
  }

  /** A compound file laid out as [MS-CFB] prescribes: header, sectors before the directory, the
      root directory entry, and the rest. The unnamed parts are arbitrary. */
  datatype Compound = Compound(
    idAndVersion: seq<Byte>,      // header bytes 8 to 29
    sectorShift: nat,
    counts: seq<Byte>,            // header bytes 32 to 47
    firstDirSector: nat,
    difat: seq<Byte>,             // header bytes 52 to 511
    sectors: seq<Byte>,           // from byte 512 to the directory
    name: seq<Byte>,              // entry bytes 0 to 79
    clsid: seq<Byte>,
    stream: seq<Byte>,            // entry bytes 96 to 127
    rest: seq<Byte>)

  predicate WellFormed(c: Compound) {
    && |c.idAndVersion| == 22 && |c.counts| == 16 && |c.difat| == 460
    && MIN_SECTOR_SHIFT <= c.sectorShift <= MAX_SECTOR_SHIFT && c.firstDirSector < FREE_SECTOR
    && HEADER_LEN + |c.sectors| == SectorStart(c.firstDirSector, c.sectorShift)
    && |c.name| == 80 && |c.clsid| == CLSID_LEN && |c.stream| == 32
  }

  function Header(c: Compound): seq<Byte> {
    CFB_MAGIC + c.idAndVersion + LittleEndianBytes(c.sectorShift, 2) + c.counts
    + LittleEndianBytes(c.firstDirSector, 4) + c.difat
  }

  function Build(c: Compound): File {
    Header(c) + c.sectors + (c.name + c.clsid + c.stream) + c.rest
  }

  const INSTALLER_IDS: set<seq<Byte>> := {
    [0x84, 0x10, 0x0C, 0x00] + INSTALLER_TAIL,   // .msi database
    [0x86, 0x10, 0x0C, 0x00] + INSTALLER_TAIL,   // .msp patch
    [0x82, 0x10, 0x0C, 0x00] + INSTALLER_TAIL,   // .mst transform
    [0x90, 0x10, 0x0C, 0x00] + INSTALLER_TAIL    // .msm merge module
  }

  lemma Slice(before: seq<Byte>, part: seq<Byte>, after: seq<Byte>)
    ensures (before + part + after)[|before|..|before| + |part|] == part
  {
  }

  lemma HeaderParts(c: Compound)
    requires WellFormed(c)
    ensures |Header(c)| == HEADER_LEN && Header(c)[0] == 0xD0 && Header(c)[0..8] == CFB_MAGIC
    ensures LittleEndian(Header(c)[30..32]) == c.sectorShift
    ensures LittleEndian(Header(c)[48..52]) == c.firstDirSector
  {
    var a := CFB_MAGIC + c.idAndVersion;
    var b := LittleEndianBytes(c.sectorShift, 2);
    var d := LittleEndianBytes(c.firstDirSector, 4);
    assert Header(c) == a + b + (c.counts + d + c.difat);
    Slice(a, b, c.counts + d + c.difat);
    assert Header(c) == (a + b + c.counts) + d + c.difat;
    Slice(a + b + c.counts, d, c.difat);
    assert Power256(2) == 0x1_0000 && Power256(4) == 0x1_0000_0000;
    LittleEndianRoundTrip(c.sectorShift, 2);
    LittleEndianRoundTrip(c.firstDirSector, 4);
  }

  lemma BuildParts(c: Compound)
    requires WellFormed(c)
    ensures var offset := SectorStart(c.firstDirSector, c.sectorShift);
            && offset + DIR_ENTRY_LEN <= |Build(c)|
            && Build(c)[0..HEADER_LEN] == Header(c)
            && Build(c)[offset..offset + DIR_ENTRY_LEN] == c.name + c.clsid + c.stream
  {
    HeaderParts(c);
    var entry := c.name + c.clsid + c.stream;
    Slice(Header(c) + c.sectors, entry, c.rest);
  }

  /** Whatever the rest holds, the class id of a well-formed compound file is found. */
  lemma BuiltCLSIDIsFound(c: Compound)
    requires WellFormed(c)
    ensures CompoundRootCLSID(Build(c)) == Some(c.clsid)
  {
    OffsetIsStart(c.firstDirSector, c.sectorShift);
    HeaderParts(c);
    BuildParts(c);
    Slice(c.name, c.clsid, c.stream);
  }

  lemma SameNumberSameBytes(a: seq<Byte>, b: seq<Byte>)
    requires |a| == |b|
    ensures LittleEndian(a) == LittleEndian(b) <==> a == b
  {
    BytesRoundTrip(a);
    BytesRoundTrip(b);
  }

  lemma FourBytes(a: Byte, b: Byte, c: Byte, d: Byte)
    ensures LittleEndian([a, b, c, d]) == a + 256 * (b + 256 * (c + 256 * d))
  {
    assert [a, b, c, d][1..] == [b, c, d] && [b, c, d][1..] == [c, d] && [c, d][1..] == [d];
    assert LittleEndian([d]) == d;
    assert LittleEndian([c, d]) == c + 256 * d;
    assert LittleEndian([b, c, d]) == b + 256 * (c + 256 * d);
  }

  lemma InstallerId(clsid: seq<Byte>, low: Byte)
    requires |clsid| == CLSID_LEN
    ensures clsid == [low, 0x10, 0x0C, 0x00] + INSTALLER_TAIL <==>
            LittleEndian(clsid[0..4]) == low + 0x000C1000 && clsid[4..16] == INSTALLER_TAIL
  {
    var head := [low, 0x10, 0x0C, 0x00];
    FourBytes(low, 0x10, 0x0C, 0x00);
    SameNumberSameBytes(clsid[0..4], head);
    assert clsid == clsid[0..4] + clsid[4..16];
    assert (head + INSTALLER_TAIL)[0..4] == head && (head + INSTALLER_TAIL)[4..16] == INSTALLER_TAIL;
  }

  lemma InstallerIds(clsid: seq<Byte>)
    ensures IsInstallerCLSID(clsid) <==> clsid in INSTALLER_IDS
  {
    if |clsid| == CLSID_LEN {
      InstallerId(clsid, 0x84);
      InstallerId(clsid, 0x86);
      InstallerId(clsid, 0x82);
      InstallerId(clsid, 0x90);
    }
  }

  /** A well-formed compound file passes exactly when its class id is one of the four. */
  lemma BuiltKind(c: Compound)
    requires WellFormed(c)
    ensures DetectKind(Build(c)) == if c.clsid in INSTALLER_IDS then Some(MSI) else None
  {
    BuiltCLSIDIsFound(c);
    InstallerIds(c.clsid);
    HeaderParts(c);
    BuildParts(c);
    assert Build(c)[0..8] == Header(c)[0..8];
  }

  // ---------------------------------------------------------------- every file

  predicate HasMagic(file: File) {
    CFB_MAGIC <= file
  }

  /** Where the header says the root directory entry is; None when the header cannot be trusted. */
  function Directory(file: File): Option<int> {
    if |file| < HEADER_LEN then None
    else
      var shift := LittleEndian(file[30..32]);
      var sector := LittleEndian(file[48..52]);
      if 7 <= shift <= 12 && sector != FREE_SECTOR && SectorStart(sector, shift) + DIR_ENTRY_LEN <= |file|
      then Some(SectorStart(sector, shift)) else None
  }

  /** Bytes 80 to 95 of the root directory entry ([MS-CFB] section 2.6.1). */
  function RootCLSID(file: File): seq<Byte>
    requires Directory(file).Some?
  {
    file[Directory(file).value + 80..Directory(file).value + 96]
  }

  lemma CLSIDIsInTheDirectory(file: File)
    ensures CompoundRootCLSID(file).Some? <==> Directory(file).Some?
    ensures Directory(file).Some? ==> CompoundRootCLSID(file).value == RootCLSID(file)
  {
    if |file| >= HEADER_LEN {
      var header := file[0..HEADER_LEN];
      assert header[30..32] == file[30..32] && header[48..52] == file[48..52];
      if 7 <= LittleEndian(file[30..32]) <= 12 {
        OffsetIsStart(LittleEndian(file[48..52]), LittleEndian(file[30..32]));
      }
      if Directory(file).Some? {
        var at := Directory(file).value;
        assert file[at..at + 128][80..96] == file[at + 80..at + 96];
      }
    }
  }

  lemma MagicIsNoPE(file: File)
    requires HasMagic(file)
    ensures !IsPE(file)
  {
    assert file[0] == CFB_MAGIC[0];
  }

  /** The verdict on any byte string. The case without a directory is the deliberate fail-open case. */
  lemma KindOfAnyFile(file: File)
    ensures DetectKind(file) == Some(EXE) <==> IsPEImage(file)
    ensures DetectKind(file) == Some(MSI) <==>
            HasMagic(file) && (Directory(file).None? || RootCLSID(file) in INSTALLER_IDS)
    ensures DetectKind(file) in {Some(EXE), Some(MSI), None}
  {
    PEIsRecognized(file);
    if |file| >= 8 {
      assert CFB_MAGIC <= file <==> file[0..8] == CFB_MAGIC;
    }
    CLSIDIsInTheDirectory(file);
    if HasMagic(file) {
      MagicIsNoPE(file);
      if Directory(file).Some? {
        InstallerIds(RootCLSID(file));
      }
    }
  }

  /** Every compound file whose directory lies behind the header is a well-formed layout, so BuiltKind
      covers it. (With 128- or 256-byte sectors the entry may overlap the header.) */
  lemma EveryCompoundIsBuilt(file: File) returns (c: Compound)
    requires HasMagic(file) && Directory(file).Some? && Directory(file).value >= HEADER_LEN
    ensures WellFormed(c) && Build(c) == file
  {
    var at := Directory(file).value;
    c := Compound(file[8..30], LittleEndian(file[30..32]), file[32..48], LittleEndian(file[48..52]),
                  file[52..512], file[512..at], file[at..at + 80], file[at + 80..at + 96],
                  file[at + 96..at + 128], file[at + 128..]);
    BytesRoundTrip(file[30..32]);
    BytesRoundTrip(file[48..52]);
    assert Power256(4) == 0x1_0000_0000;
    HeaderIsItsParts(file);
    assert Header(c) == file[..512];
    BodyIsItsParts(file, at);
  }

  lemma HeaderIsItsParts(file: File)
    requires HasMagic(file) && |file| >= HEADER_LEN
    ensures file[..512] == CFB_MAGIC + file[8..30] + file[30..32] + file[32..48] + file[48..52] + file[52..512]
  {
    assert file[..8] == CFB_MAGIC;
  }

  lemma BodyIsItsParts(file: File, at: nat)
    requires 512 <= at && at + 128 <= |file|
    ensures file == file[..512] + file[512..at] + (file[at..at + 80] + file[at + 80..at + 96] + file[at + 96..at + 128])
                    + file[at + 128..]
  {
  }

  // ---------------------------------------------------------------- appending

  lemma DirectoryStays(file: File, more: seq<Byte>)
    requires Directory(file).Some?
    ensures Directory(file + more) == Directory(file) && RootCLSID(file + more) == RootCLSID(file)
  {
    assert (file + more)[30..32] == file[30..32] && (file + more)[48..52] == file[48..52];
  }

  lemma PEStays(file: File, more: seq<Byte>)
    requires IsPEImage(file)
    ensures IsPEImage(file + more)
  {
    var stub: seq<Byte>, rest: seq<Byte> :|
      file == stub + PE_SIGNATURE + rest
           && file[0x3C..0x40] == LittleEndianBytes(|stub|, 4) && |stub| < Power256(4);
    assert file + more == stub + PE_SIGNATURE + (rest + more);
    assert (file + more)[0x3C..0x40] == file[0x3C..0x40];
  }

  /** Appending bytes to a PE image, or to a compound file whose directory was located, changes no verdict. */
  lemma AppendKeepsKind(file: File, more: seq<Byte>)
    requires IsPEImage(file) || (HasMagic(file) && Directory(file).Some?)
    ensures DetectKind(file + more) == DetectKind(file)
  {
    KindOfAnyFile(file);
    KindOfAnyFile(file + more);
    if IsPEImage(file) {
      PEStays(file, more);
    } else {
      DirectoryStays(file, more);
      assert HasMagic(file + more);
      MagicIsNoPE(file + more);
    }
  }

  /** For a signable upload: the verdict survives an append unless it was given blindly and the longer
      file has a directory with another class id. */
  lemma AppendMayUnmask(file: File, more: seq<Byte>)
    requires DetectKind(file).Some?
    ensures DetectKind(file + more) != DetectKind(file) <==>
            HasMagic(file) && Directory(file).None? && Directory(file + more).Some?
            && RootCLSID(file + more) !in INSTALLER_IDS
  {
    KindOfAnyFile(file);
    KindOfAnyFile(file + more);
    if IsPEImage(file) || Directory(file).Some? {
      AppendKeepsKind(file, more);
      if IsPEImage(file) && HasMagic(file) { MagicIsNoPE(file); }
    } else {
      assert HasMagic(file + more);
      MagicIsNoPE(file + more);
    }
  }

  const FAKE_MARKER: string := "\nFAKE-AUTHENTICODE-SIGNATURE\n"

  /** What the fake backend writes: its input, then the marker. */
  function FakeSigned(file: File): File {
    file + seq(|FAKE_MARKER|, i requires 0 <= i < |FAKE_MARKER| => FAKE_MARKER[i] as int % 256)
  }

  /** A fake-signed file is classified as its input was, blind verdicts aside. */
  lemma FakeSigningKeepsKind(file: File)
    requires DetectKind(file).Some? && (HasMagic(file) ==> Directory(file).Some?)
    ensures DetectKind(FakeSigned(file)) == DetectKind(file)
  {
    KindOfAnyFile(file);
    AppendKeepsKind(file, FakeSigned(file)[|file|..]);
    assert FakeSigned(file) == file + FakeSigned(file)[|file|..];
  }

  lemma DirectoryBehindHeader(c: Compound, tail: seq<Byte>)
    requires WellFormed(c)
    ensures HasMagic(Header(c) + tail)
    ensures var at := SectorStart(c.firstDirSector, c.sectorShift);
            Directory(Header(c) + tail) == if at + DIR_ENTRY_LEN <= HEADER_LEN + |tail| then Some(at) else None
  {
    HeaderParts(c);
    var file := Header(c) + tail;
    assert file[30..32] == Header(c)[30..32] && file[48..52] == Header(c)[48..52];
    assert file[..8] == Header(c)[0..8];
  }

  function Zeros(n: nat): (zeros: seq<Byte>)
    ensures |zeros| == n && forall i :: 0 <= i < n ==> zeros[i] == 0
  {
    seq(n, i => 0)
  }

  lemma ZeroIsNoInstaller(clsid: seq<Byte>)
    requires |clsid| == CLSID_LEN && clsid[15] == 0
    ensures clsid !in INSTALLER_IDS
  {
    forall id | id in INSTALLER_IDS ensures id[15] == 0x46 { }
  }

  /** A header without sectors, and so far 100 bytes of its directory entry. */
  lemma CutShort() returns (file: File, c: Compound)
    ensures WellFormed(c) && SectorStart(c.firstDirSector, c.sectorShift) == 512 && |Header(c)| == 512
    ensures file == Header(c) + Zeros(100) && HasMagic(file) && Directory(file) == None
  {
    c := Compound(Zeros(22), 9, Zeros(16), 0, Zeros(460), [], Zeros(80), Zeros(16), Zeros(32), []);
    ShiftValues();
    HeaderParts(c);
    DirectoryBehindHeader(c, Zeros(100));
    file := Header(c) + Zeros(100);
  }

  /** A blind verdict can change: here the marker completes a directory entry whose class id is zero. */
  lemma BlindVerdictCanChange() returns (file: File)
    ensures DetectKind(file) == Some(MSI) && DetectKind(FakeSigned(file)) == None
  {
    var c;
    file, c := CutShort();
    KindOfAnyFile(file);
    MagicIsNoPE(file);
    var signed, marker := FakeSigned(file), FakeSigned(file)[|file|..];
    assert signed == Header(c) + (Zeros(100) + marker) && |marker| == 29;
    DirectoryBehindHeader(c, Zeros(100) + marker);
    ZeroIsNoInstaller(RootCLSID(signed));
    MagicIsNoPE(signed);
    KindOfAnyFile(signed);
  }
}
