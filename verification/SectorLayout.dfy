/** The upload gate against the layout that [MS-CFB] sections 2.1 and 2.2 describe: a file is a row of sectors of
    one size, the header fills the first, and sector number n has n + 1 before it. No offset is computed here,
    and all numbers of the formats are written out. */
module SectorLayout {
  import opened Common
  import opened Classifier

  function Joined(sectors: seq<seq<Byte>>): seq<Byte> {
    if sectors == [] then [] else sectors[0] + Joined(sectors[1..])
  }

  /** The file is these sectors, all of one size but the last, which is cut short and may be empty. */
  ghost predicate MadeOf(file: seq<Byte>, size: nat, sectors: seq<seq<Byte>>) {
    && sectors != [] && file == Joined(sectors) && |sectors[|sectors| - 1]| < size
    && forall k :: 0 <= k < |sectors| - 1 ==> |sectors[k]| == size
  }

  /** Every file is made of sectors of any size. */
  lemma {:induction false} EveryFileIsMadeOf(file: seq<Byte>, size: nat) returns (sectors: seq<seq<Byte>>)
    requires size > 0
    ensures MadeOf(file, size, sectors)
    decreases |file|
  {
    if |file| < size {
      sectors := [file];
      assert Joined(sectors) == file + Joined([]);
    } else {
      var rest := EveryFileIsMadeOf(file[size..], size);
      sectors := [file[..size]] + rest;
      assert sectors[1..] == rest;
    }
  }

  /** Where a sector lies: behind those before it. */
  lemma {:induction false} SectorLies(file: seq<Byte>, size: nat, sectors: seq<seq<Byte>>, k: nat)
    requires MadeOf(file, size, sectors) && k < |sectors|
    ensures k * size + |sectors[k]| <= |file|
    ensures file[k * size..k * size + |sectors[k]|] == sectors[k]
    ensures k == |sectors| - 1 ==> k * size + |sectors[k]| == |file|
    decreases k
  {
    if k == 0 {
      assert |sectors| == 1 ==> Joined(sectors[1..]) == [];
    } else {
      var rest := file[size..];
      assert sectors[1..][|sectors| - 2] == sectors[|sectors| - 1];
      SectorLies(rest, size, sectors[1..], k - 1);
      assert k * size == (k - 1) * size + size;
      assert file == sectors[0] + rest;
    }
  }

  lemma {:induction false} FileLength(file: seq<Byte>, size: nat, sectors: seq<seq<Byte>>)
    requires MadeOf(file, size, sectors)
    ensures |file| == (|sectors| - 1) * size + |sectors[|sectors| - 1]|
  {
    SectorLies(file, size, sectors, |sectors| - 1);
  }

  /** The four class ids of the Windows Installer family. */
  predicate IsInstaller(id: seq<Byte>) {
    id in {[0x84, 0x10, 0x0C, 0x00, 0, 0, 0, 0, 0xC0, 0, 0, 0, 0, 0, 0, 0x46],
           [0x86, 0x10, 0x0C, 0x00, 0, 0, 0, 0, 0xC0, 0, 0, 0, 0, 0, 0, 0x46],
           [0x82, 0x10, 0x0C, 0x00, 0, 0, 0, 0, 0xC0, 0, 0, 0, 0, 0, 0, 0x46],
           [0x90, 0x10, 0x0C, 0x00, 0, 0, 0, 0, 0xC0, 0, 0, 0, 0, 0, 0, 0x46]}
  }

  predicate HasCompoundMagic(file: seq<Byte>) {
    |file| >= 8 && file[..8] == [0xD0, 0xCF, 0x11, 0xE0, 0xA1, 0xB1, 0x1A, 0xE1]
  }

  /** Header bytes 30 and 31: the binary logarithm of the sector size. */
  function ShiftOf(file: seq<Byte>): nat
    requires |file| >= 512
  {
    var low: int, high: int := file[30], file[31];
    low + 256 * high
  }

  function Number(a: int, b: int, c: int, d: int): int {
    a + 256 * b + 65536 * c + 16777216 * d
  }

  /** Header bytes 48 to 51: the number of the first directory sector. */
  function DirectoryOf(file: seq<Byte>): nat
    requires |file| >= 512
  {
    Number(file[48], file[49], file[50], file[51])
  }

  /** The header names a sector: its size is accepted and its number is not the one for free sectors. */
  predicate NamesDirectory(file: seq<Byte>) {
    |file| >= 512 && 7 <= ShiftOf(file) <= 12 && DirectoryOf(file) != 0xFFFF_FFFF
  }

  lemma TwoBytes(a: Byte, b: Byte)
    ensures LittleEndian([a, b]) == a + 256 * b
  {
    assert LittleEndian([b]) == b + 256 * LittleEndian([]);
    assert [a, b][1..] == [b];
  }

  lemma HeaderNumbers(file: seq<Byte>)
    requires |file| >= 512
    ensures LittleEndian(file[30..32]) == ShiftOf(file) && LittleEndian(file[48..52]) == DirectoryOf(file)
  {
    assert file[30..32] == [file[30], file[31]] && file[48..52] == [file[48], file[49], file[50], file[51]];
    TwoBytes(file[30], file[31]);
    FourBytes(file[48], file[49], file[50], file[51]);
  }

  lemma DirectoryLies(file: seq<Byte>, sectors: seq<seq<Byte>>)
    requires NamesDirectory(file) && MadeOf(file, SectorSize(ShiftOf(file)), sectors)
    ensures var k := DirectoryOf(file) + 1;
            if k < |sectors| && |sectors[k]| >= 128
            then Directory(file) == Some(k * SectorSize(ShiftOf(file))) && RootCLSID(file) == sectors[k][80..96]
            else Directory(file) == None
  {
    var k, size := DirectoryOf(file) + 1, SectorSize(ShiftOf(file));
    HeaderNumbers(file);
    assert SectorStart(DirectoryOf(file), ShiftOf(file)) == k * size;
    FileLength(file, size, sectors);
    if k < |sectors| {
      SectorLies(file, size, sectors, k);
      assert k < |sectors| - 1 ==> size >= 128;
      if |sectors[k]| >= 128 {
        assert file[k * size + 80..k * size + 96] == file[k * size..k * size + |sectors[k]|][80..96];
      }
    } else {
      assert k * size >= (|sectors| - 1) * size + size by { Monotone(|sectors|, k, size); }
    }
  }

  lemma Monotone(a: nat, b: nat, size: nat)
    requires a <= b
    ensures a * size <= b * size && (a > 0 ==> a * size == (a - 1) * size + size)
  {
  }

  lemma InstallersAreFour(id: seq<Byte>)
    ensures id in INSTALLER_IDS <==> IsInstaller(id)
  {
    forall low: Byte ensures [low, 0x10, 0x0C, 0x00] + INSTALLER_TAIL
                             == [low, 0x10, 0x0C, 0x00, 0, 0, 0, 0, 0xC0, 0, 0, 0, 0, 0, 0, 0x46] {
    }
  }

  /** The verdict on a compound file. If the header names a sector and a whole directory entry stands at its head,
      bytes 80 to 95 of that sector decide; otherwise the file passes unseen. */
  lemma KindOfCompoundFile(file: seq<Byte>, sectors: seq<seq<Byte>>)
    requires HasCompoundMagic(file)
    requires NamesDirectory(file) ==> MadeOf(file, SectorSize(ShiftOf(file)), sectors)
    ensures !NamesDirectory(file) ==> DetectKind(file) == Some(".msi")
    ensures NamesDirectory(file) ==>
              var k := DirectoryOf(file) + 1;
              DetectKind(file) == if k < |sectors| && |sectors[k]| >= 128 && !IsInstaller(sectors[k][80..96])
                                  then None else Some(".msi")
  {
    assert HasMagic(file) by { assert file[..8] == CFB_MAGIC; }
    MagicIsNoPE(file);
    KindOfAnyFile(file);
    if NamesDirectory(file) {
      DirectoryLies(file, sectors);
      if Directory(file).Some? {
        InstallersAreFour(RootCLSID(file));
      }
    } else if |file| >= 512 {
      HeaderNumbers(file);
    }
  }

  /** A PE image begins with "MZ", and the four bytes at 0x3C spell where "PE", zero, zero stands. */
  predicate IsImage(file: seq<Byte>) {
    && |file| >= 64 && file[0] == 'M' as int && file[1] == 'Z' as int
    && var at := Number(file[60], file[61], file[62], file[63]);
       at + 4 <= |file| && file[at..at + 4] == ['P' as int, 'E' as int, 0, 0]
  }

  /** Everything else: a PE image passes as ".exe", and what has neither form is refused. */
  lemma KindOfOtherFile(file: seq<Byte>)
    requires !HasCompoundMagic(file)
    ensures DetectKind(file) == if IsImage(file) then Some(".exe") else None
  {
    ImagesAreImages(file);
    KindOfAnyFile(file);
    PEIsRecognized(file);
    assert HasMagic(file) ==> file[..8] == CFB_MAGIC;
  }

  lemma ImagesAreImages(file: seq<Byte>)
    ensures IsPE(file) <==> IsImage(file)
  {
    if |file| >= 64 {
      var dos := file[0..64];
      assert dos[60..64] == [file[60], file[61], file[62], file[63]];
      FourBytes(file[60], file[61], file[62], file[63]);
    }
  }
}
