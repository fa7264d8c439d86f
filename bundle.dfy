/** A VM bundle of the gui-linux example (example/gui-linux/bundle.go): a
    directory holding the disk image, the EFI variable store and the machine
    identifier, and the heuristic that decides whether the disk already
    holds an installed system. File-system calls are replaced by their
    outcomes. */
module Bundles {
  import opened Wrappers
  import opened Errors
  import opened Paths

  type byte = bv8

  const DiskImageName := "Disk.img"
  const EFIVariableStoreName := "NVRAM"
  const MachineIdentifierName := "MachineIdentifier"

  /** The size of the boot sector `HasBootableDisk` reads. */
  const SectorSize := 512

  /** Every byte is zero. */
  predicate AllZero(s: seq<byte>)
  {
    forall i :: 0 <= i < |s| ==> s[i] == 0
  }

  datatype Bundle = Bundle(path: string)
  {
    /** `DiskImagePath()`. */
    function DiskImagePath(): (p: string)
      ensures HasPrefix(p, path) && |DiskImageName| <= |p| && p[|p| - |DiskImageName|..] == DiskImageName
    {
      PlainNameIsClean(DiskImageName);
      JoinPath(path, DiskImageName)
    }

    /** `EFIVariableStorePath()`. */
    function EFIVariableStorePath(): (p: string)
      ensures HasPrefix(p, path) && |EFIVariableStoreName| <= |p| && p[|p| - |EFIVariableStoreName|..] == EFIVariableStoreName
    {
      PlainNameIsClean(EFIVariableStoreName);
      JoinPath(path, EFIVariableStoreName)
    }

    /** `MachineIdentifierPath()`. */
    function MachineIdentifierPath(): (p: string)
      ensures HasPrefix(p, path) && |MachineIdentifierName| <= |p| && p[|p| - |MachineIdentifierName|..] == MachineIdentifierName
    {
      PlainNameIsClean(MachineIdentifierName);
      JoinPath(path, MachineIdentifierName)
    }

    /** `IsInstalled()`: the EFI variable store exists, where `existing`
        is the set of paths `os.Stat` succeeds on. */
    function IsInstalled(existing: set<string>): (installed: bool)
      ensures installed <==> EFIVariableStorePath() in existing
    {
      EFIVariableStorePath() in existing
    }

    /** `HasBootableDisk()`, given the outcome of opening the disk image
        and the bytes (or the error) the one `Read` into the 512-byte
        buffer delivered: true exactly when the image opened, the read
        filled the whole buffer, and some byte of it is not zero. */
    method HasBootableDisk(openError: Option<Error>, read: Result<seq<byte>, Error>) returns (b: bool)
      requires read.Ok? ==> |read.value| <= SectorSize
      ensures b <==> openError.None? && read.Ok? && |read.value| == SectorSize && !AllZero(read.value)
    {
      if openError.Some? {
        return false;
      }
      var buf := new byte[SectorSize];
      if read.Err? || |read.value| < SectorSize {
        return false;
      }
      var data := read.value;
      forall i | 0 <= i < SectorSize {
        buf[i] := data[i];
      }
      var i := 0;
      while i < buf.Length
        invariant 0 <= i <= buf.Length
        invariant forall j :: 0 <= j < i ==> data[j] == 0
      {
        if buf[i] != 0 {
          return true;
        }
        i := i + 1;
      }
      return false;
    }
  }

  /** The three files of a bundle live at three different paths. */
  lemma BundlePathsDistinct(b: Bundle)
    ensures b.DiskImagePath() != b.EFIVariableStorePath()
    ensures b.DiskImagePath() != b.MachineIdentifierPath()
    ensures b.EFIVariableStorePath() != b.MachineIdentifierPath()
  {
    PlainNameIsClean(DiskImageName);
    PlainNameIsClean(EFIVariableStoreName);
    PlainNameIsClean(MachineIdentifierName);
    if b.DiskImagePath() == b.EFIVariableStorePath() {
      JoinPathInjective(b.path, DiskImageName, EFIVariableStoreName);
    }
    if b.DiskImagePath() == b.MachineIdentifierPath() {
      JoinPathInjective(b.path, DiskImageName, MachineIdentifierName);
    }
    if b.EFIVariableStorePath() == b.MachineIdentifierPath() {
      JoinPathInjective(b.path, EFIVariableStoreName, MachineIdentifierName);
    }
  }

  /** A bundle with its NVRAM file counts as installed whatever else
      exists, and one whose NVRAM file is missing does not, even when its
      disk image is present. */
  lemma InstalledOnlyByNVRAM(b: Bundle, existing: set<string>)
    ensures b.IsInstalled(existing + {b.EFIVariableStorePath()})
    ensures b.EFIVariableStorePath() !in existing ==> !b.IsInstalled(existing + {b.DiskImagePath()})
  {
    BundlePathsDistinct(b);
  }
}
