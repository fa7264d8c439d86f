/** The VM registry of the gui-linux example (example/gui-linux/registry.go):
    an ordered list of named VM entries, persisted as `registry.json` in
    the base directory. Reading, writing and deleting files are replaced by
    their outcomes, and every request the registry makes of the file system
    is recorded in `fileActions`. */
module VmRegistry {
  import opened Wrappers
  import opened Errors
  import opened Paths
  import opened Bundles

  const BaseDirectoryName := "GUI Linux VM"
  const RegistryFileName := "registry.json"
  const DefaultVMName := "default"
  const BundleSuffix := ".bundle"

  /** `VMEntry`; `createdAt` stands for the `time.Time` taken at creation. */
  datatype VMEntry = VMEntry(name: string, bundleName: string, isoPath: string, createdAt: int)

  /** A request made of the file system. */
  datatype FileAction =
    | SaveAction(vms: seq<VMEntry>)   // write registry.json holding these entries
    | RemoveAllAction(path: string)   // `os.RemoveAll(path)`

  /** What reading and decoding `registry.json` gave `LoadRegistry`. */
  datatype RegistryFile =
    | Missing
    | ReadFailed(readError: Error)
    | ParseFailed(parseError: Error)
    | Parsed(entries: seq<VMEntry>)

  /** `BaseDirectory()`, from the home directory the process reports. */
  function BaseDirectory(home: string): (d: string)
    ensures HasPrefix(d, home) && |BaseDirectoryName| <= |d| && d[|d| - |BaseDirectoryName|..] == BaseDirectoryName
  {
    PlainNameIsClean(BaseDirectoryName);
    JoinPath(home, BaseDirectoryName)
  }

  /** `RegistryPath()`. */
  function RegistryPath(home: string): (p: string)
    ensures HasPrefix(p, BaseDirectory(home)) && |RegistryFileName| <= |p| && p[|p| - |RegistryFileName|..] == RegistryFileName
  {
    PlainNameIsClean(RegistryFileName);
    JoinPath(BaseDirectory(home), RegistryFileName)
  }

  /** The position of the first entry called `name`, if there is one. */
  function FirstIndex(vms: seq<VMEntry>, name: string): (r: Option<nat>)
    ensures r.Some? ==> r.value < |vms| && vms[r.value].name == name
    ensures r.Some? ==> forall j :: 0 <= j < r.value ==> vms[j].name != name
    ensures r.None? <==> forall j :: 0 <= j < |vms| ==> vms[j].name != name
    decreases |vms|
  {
    if vms == [] then None
    else if vms[0].name == name then Some(0)
    else match FirstIndex(vms[1..], name)
      case None => None
      case Some(i) => Some(i + 1)
  }

  /** No two entries share a name. */
  ghost predicate UniqueNames(vms: seq<VMEntry>)
  {
    forall i, j :: 0 <= i < j < |vms| ==> vms[i].name != vms[j].name
  }

  /** The list without the entry at `i`, the others in their order (the
      `append(r.VMs[:idx], r.VMs[idx+1:]...)` of `Remove`). */
  function RemoveAt(vms: seq<VMEntry>, i: nat): (r: seq<VMEntry>)
    requires i < |vms|
    ensures |r| == |vms| - 1
    ensures forall j :: 0 <= j < i ==> r[j] == vms[j]
    ensures forall j :: i <= j < |r| ==> r[j] == vms[j + 1]
  {
    vms[..i] + vms[i + 1..]
  }

  /** Appending an entry under a name not yet present keeps the names
      unique, and the new entry is then the one found under its name. */
  lemma AppendKeepsUnique(vms: seq<VMEntry>, e: VMEntry)
    requires UniqueNames(vms) && FirstIndex(vms, e.name).None?
    ensures UniqueNames(vms + [e])
    ensures FirstIndex(vms + [e], e.name) == Some(|vms|)
  {
    var s := vms + [e];
    forall i, j | 0 <= i < j < |s| ensures s[i].name != s[j].name {
      if j == |vms| {
        assert s[i] == vms[i];
      } else {
        assert s[i] == vms[i] && s[j] == vms[j];
      }
    }
    FirstIndexAppend(vms, e);
  }

  /** Removing an entry keeps the names unique, and when names are unique
      the removed name is no longer found while every other name is found
      as before. */
  lemma RemoveAtKeepsUnique(vms: seq<VMEntry>, i: nat, other: string)
    requires i < |vms| && UniqueNames(vms)
    ensures UniqueNames(RemoveAt(vms, i))
    ensures FirstIndex(RemoveAt(vms, i), vms[i].name).None?
    ensures other != vms[i].name ==> (FirstIndex(RemoveAt(vms, i), other).Some? <==> FirstIndex(vms, other).Some?)
  {
    var r := RemoveAt(vms, i);
    forall a, b | 0 <= a < b < |r| ensures r[a].name != r[b].name {
      var a' := if a < i then a else a + 1;
      var b' := if b < i then b else b + 1;
      assert r[a] == vms[a'] && r[b] == vms[b'] && a' < b';
    }
    forall j | 0 <= j < |r| ensures r[j].name != vms[i].name {
      var j' := if j < i then j else j + 1;
      assert r[j] == vms[j'] && j' != i;
    }
    if other != vms[i].name {
      if FirstIndex(vms, other).Some? {
        var k := FirstIndex(vms, other).value;
        var k' := if k < i then k else k - 1;
        assert r[k'] == vms[k];
      }
      if FirstIndex(r, other).Some? {
        var k := FirstIndex(r, other).value;
        var k' := if k < i then k else k + 1;
        assert r[k] == vms[k'];
      }
    }
  }

  /** Changing an entry's ISO path changes no name, so where names are
      found and whether they are unique stay as they were. */
  lemma SetISOKeepsNames(vms: seq<VMEntry>, i: nat, iso: string, name: string)
    requires i < |vms|
    ensures FirstIndex(vms[i := vms[i].(isoPath := iso)], name) == FirstIndex(vms, name)
    ensures UniqueNames(vms) ==> UniqueNames(vms[i := vms[i].(isoPath := iso)])
  {
    var s := vms[i := vms[i].(isoPath := iso)];
    assert forall j :: 0 <= j < |s| ==> s[j].name == vms[j].name;
  }

  function AlreadyExistsError(name: string): Error { Message("VM " + Quote(name) + " already exists") }
  function NotFoundError(name: string): Error { Message("VM " + Quote(name) + " not found") }

  /** The error `Save` returns when writing the file fails. */
  function WriteError(e: Error): Error { Wrapped("failed to write registry", e) }

  class Registry {
    var vms: seq<VMEntry>
    const path: string             // registry.json
    const baseDirectory: string
    var fileActions: seq<FileAction>

    /** A registry at `RegistryPath()` holding `entries`. */
    constructor (home: string, entries: seq<VMEntry>)
      ensures vms == entries && fileActions == []
      ensures path == RegistryPath(home) && baseDirectory == BaseDirectory(home)
    {
      vms := entries;
      path := RegistryPath(home);
      baseDirectory := BaseDirectory(home);
      fileActions := [];
    }

    /** `LoadRegistry()`: the base directory must be creatable; a missing
        file gives an empty registry; read and decode failures are
        reported. */
    static method LoadRegistry(home: string, mkdirError: Option<Error>, file: RegistryFile)
      returns (r: Registry?, err: Option<Error>)
      ensures r == null <==> err.Some?
      ensures mkdirError.Some? ==> err == Some(Wrapped("failed to create base directory", mkdirError.value))
      ensures mkdirError.None? && file.ReadFailed? ==> err == Some(Wrapped("failed to read registry", file.readError))
      ensures mkdirError.None? && file.ParseFailed? ==> err == Some(Wrapped("failed to parse registry", file.parseError))
      ensures r != null ==> fresh(r) && r.path == RegistryPath(home) && r.baseDirectory == BaseDirectory(home) && r.fileActions == []
      ensures r != null ==> mkdirError.None? && (file.Missing? || file.Parsed?)
      ensures r != null ==> r.vms == (if file.Parsed? then file.entries else [])
    {
      if mkdirError.Some? {
        r, err := null, Some(Wrapped("failed to create base directory", mkdirError.value));
      } else if file.Missing? {
        r := new Registry(home, []);
        err := None;
      } else if file.ReadFailed? {
        r, err := null, Some(Wrapped("failed to read registry", file.readError));
      } else if file.ParseFailed? {
        r, err := null, Some(Wrapped("failed to parse registry", file.parseError));
      } else {
        r := new Registry(home, file.entries);
        err := None;
      }
    }

    /** `Save()`: ask for the current entries to be written. */
    method Save(writeError: Option<Error>) returns (err: Option<Error>)
      modifies this`fileActions
      ensures fileActions == old(fileActions) + [SaveAction(vms)]
      ensures err.Some? <==> writeError.Some?
      ensures writeError.Some? ==> err == Some(WriteError(writeError.value))
    {
      fileActions := fileActions + [SaveAction(vms)];
      if writeError.Some? {
        err := Some(WriteError(writeError.value));
      } else {
        err := None;
      }
    }

    /** `Find(name)`: the position of the first entry called `name`. */
    method Find(name: string) returns (r: Option<nat>)
      ensures r == FirstIndex(vms, name)
    {
      var i := 0;
      while i < |vms|
        invariant 0 <= i <= |vms|
        invariant forall j :: 0 <= j < i ==> vms[j].name != name
      {
        if vms[i].name == name {
          return Some(i);
        }
        i := i + 1;
      }
      return None;
    }

    /** `Exists(name)`. */
    method Exists(name: string) returns (b: bool)
      ensures b <==> FirstIndex(vms, name).Some?
      ensures b <==> exists j :: 0 <= j < |vms| && vms[j].name == name
    {
      var r := Find(name);
      b := r.Some?;
    }

    /** `Add(name, isoPath)`: a taken name is refused; otherwise the new
        entry is appended and saved, and taken off again when saving
        fails. */
    method Add(name: string, isoPath: string, now: int, writeError: Option<Error>) returns (r: Result<VMEntry, Error>)
      modifies this`vms, this`fileActions
      ensures FirstIndex(old(vms), name).Some? ==>
        r == Err(AlreadyExistsError(name)) && vms == old(vms) && fileActions == old(fileActions)
      ensures FirstIndex(old(vms), name).None? ==>
        var e := VMEntry(name, name + BundleSuffix, isoPath, now);
        && fileActions == old(fileActions) + [SaveAction(old(vms) + [e])]
        && (writeError.Some? ==> r == Err(WriteError(writeError.value)) && vms == old(vms))
        && (writeError.None? ==> r == Ok(e) && vms == old(vms) + [e])
      ensures UniqueNames(old(vms)) ==> UniqueNames(vms)
    {
      var taken := Exists(name);
      if taken {
        r := Err(AlreadyExistsError(name));
      } else {
        var entry := VMEntry(name, name + BundleSuffix, isoPath, now);
        vms := vms + [entry];
        var err := Save(writeError);
        if err.Some? {
          vms := vms[..|vms| - 1];
          assert vms == old(vms);
          r := Err(err.value);
        } else {
          r := Ok(entry);
        }
        if UniqueNames(old(vms)) {
          AppendKeepsUnique(old(vms), entry);
        }
      }
    }

    /** `Remove(name, deleteBundle)`: an unknown name, or a bundle that
        cannot be deleted, leaves the list as it was; otherwise the first
        entry called `name` is taken out and the list saved. The entry
        stays removed in memory if saving fails. */
    method Remove(name: string, deleteBundle: bool, removeError: Option<Error>, writeError: Option<Error>)
      returns (err: Option<Error>)
      modifies this`vms, this`fileActions
      ensures FirstIndex(old(vms), name).None? ==>
        err == Some(NotFoundError(name)) && vms == old(vms) && fileActions == old(fileActions)
      ensures FirstIndex(old(vms), name).Some? ==>
        var i := FirstIndex(old(vms), name).value;
        var bundleAction := if deleteBundle then [RemoveAllAction(JoinPath(baseDirectory, old(vms)[i].bundleName))] else [];
        if deleteBundle && removeError.Some? then
          && err == Some(Wrapped("failed to delete bundle", removeError.value))
          && vms == old(vms) && fileActions == old(fileActions) + bundleAction
        else
          && vms == RemoveAt(old(vms), i)
          && fileActions == old(fileActions) + bundleAction + [SaveAction(vms)]
          && (err.Some? <==> writeError.Some?)
          && (writeError.Some? ==> err == Some(WriteError(writeError.value)))
      ensures UniqueNames(old(vms)) ==> UniqueNames(vms)
    {
      var idx := Find(name);  // the same first-match scan as `Find`
      if idx.None? {
        err := Some(NotFoundError(name));
      } else {
        var i := idx.value;
        var entry := vms[i];
        var failed: Option<Error> := None;
        if deleteBundle {
          fileActions := fileActions + [RemoveAllAction(JoinPath(baseDirectory, entry.bundleName))];
          failed := removeError;
        }
        if failed.Some? {
          err := Some(Wrapped("failed to delete bundle", failed.value));
        } else {
          if UniqueNames(vms) {
            RemoveAtKeepsUnique(vms, i, name);
          }
          vms := vms[..i] + vms[i + 1..];
          err := Save(writeError);
        }
      }
    }

    /** `UpdateISO(name, isoPath)`: an unknown name is reported; otherwise
        only the ISO path of the first entry called `name` changes, and
        the list is saved. */
    method UpdateISO(name: string, isoPath: string, writeError: Option<Error>) returns (err: Option<Error>)
      modifies this`vms, this`fileActions
      ensures FirstIndex(old(vms), name).None? ==>
        err == Some(NotFoundError(name)) && vms == old(vms) && fileActions == old(fileActions)
      ensures FirstIndex(old(vms), name).Some? ==>
        var i := FirstIndex(old(vms), name).value;
        && vms == old(vms)[i := old(vms)[i].(isoPath := isoPath)]
        && fileActions == old(fileActions) + [SaveAction(vms)]
        && (err.Some? <==> writeError.Some?)
        && (writeError.Some? ==> err == Some(WriteError(writeError.value)))
      ensures UniqueNames(old(vms)) ==> UniqueNames(vms)
    {
      var idx := Find(name);
      if idx.None? {
        err := Some(NotFoundError(name));
      } else {
        var i := idx.value;
        SetISOKeepsNames(vms, i, isoPath, name);
        vms := vms[i := vms[i].(isoPath := isoPath)];
        err := Save(writeError);
      }
    }

    /** `GetOrCreateDefault()`: the entry called "default" when there is
        one, with nothing changed; otherwise `Add("default", "")`. */
    method GetOrCreateDefault(now: int, writeError: Option<Error>) returns (r: Result<VMEntry, Error>)
      modifies this`vms, this`fileActions
      ensures FirstIndex(old(vms), DefaultVMName).Some? ==>
        r == Ok(old(vms)[FirstIndex(old(vms), DefaultVMName).value]) && vms == old(vms) && fileActions == old(fileActions)
      ensures FirstIndex(old(vms), DefaultVMName).None? ==>
        var e := VMEntry(DefaultVMName, DefaultVMName + BundleSuffix, "", now);
        && fileActions == old(fileActions) + [SaveAction(old(vms) + [e])]
        && (writeError.Some? ==> r == Err(WriteError(writeError.value)) && vms == old(vms))
        && (writeError.None? ==> r == Ok(e) && vms == old(vms) + [e])
      ensures r.Ok? ==> FirstIndex(vms, DefaultVMName).Some? && r.value == vms[FirstIndex(vms, DefaultVMName).value]
      ensures UniqueNames(old(vms)) ==> UniqueNames(vms)
    {
      var idx := Find(DefaultVMName);
      if idx.Some? {
        r := Ok(vms[idx.value]);
      } else {
        r := Add(DefaultVMName, "", now, writeError);
        if r.Ok? {
          assert vms[|vms| - 1] == r.value;
          assert FirstIndex(old(vms), DefaultVMName).None?;
          FirstIndexAppend(old(vms), r.value);
        }
      }
    }

    /** `List()`. */
    function List(): (entries: seq<VMEntry>)
      reads this
      ensures entries == vms
    {
      vms
    }

    /** `BundleFor(entry)`: the bundle named by the entry. A clean bundle
        name stays inside the base directory; one such as `../evil.bundle`
        does not in Go, where `filepath.Join` resolves the `..`. */
    function BundleFor(entry: VMEntry): (b: Bundle)
      ensures CleanRelative(entry.bundleName) ==> HasPrefix(b.path, baseDirectory)
      ensures CleanRelative(entry.bundleName) ==>
        |entry.bundleName| <= |b.path| && b.path[|b.path| - |entry.bundleName|..] == entry.bundleName
    {
      Bundle(JoinPath(baseDirectory, entry.bundleName))
    }

    /** Entries with different clean bundle names get different bundles. */
    lemma BundleForInjective(e1: VMEntry, e2: VMEntry)
      requires CleanRelative(e1.bundleName) && CleanRelative(e2.bundleName)
      requires e1.bundleName != e2.bundleName
      ensures BundleFor(e1) != BundleFor(e2)
    {
      if BundleFor(e1) == BundleFor(e2) {
        JoinPathInjective(baseDirectory, e1.bundleName, e2.bundleName);
      }
    }
  }

  /** A VM name without a separator gives a clean bundle name, so its
      bundle lies inside the base directory. */
  lemma PlainVMNameGivesCleanBundle(name: string)
    requires '/' !in name
    ensures CleanRelative(name + BundleSuffix)
  {
    var b := name + BundleSuffix;
    assert b[|b| - 1] == 'e' && b != "" && b != "." && b != "..";
    forall i | 0 <= i < |b| ensures b[i] != '/' {
      if i < |name| { assert b[i] == name[i]; assert name[i] in name; } else { assert b[i] == BundleSuffix[i - |name|]; }
    }
    PlainNameIsClean(b);
  }

  /** A VM name that begins with `..` gives a bundle name Go resolves out
      of the base directory: `create ../evil` puts its bundle beside it. */
  lemma ParentVMNameIsNotClean()
    ensures !CleanRelative("../evil" + BundleSuffix)
  {
    var b := "../evil" + BundleSuffix;
    assert DotComponentAt(b, 0);
  }

  /** An entry appended under a name not yet present is the one then found
      under that name. */
  lemma FirstIndexAppend(vms: seq<VMEntry>, e: VMEntry)
    requires FirstIndex(vms, e.name).None?
    ensures FirstIndex(vms + [e], e.name) == Some(|vms|)
  {
    var s := vms + [e];
    var r := FirstIndex(s, e.name);
    assert s[|vms|] == e;
    assert r.Some?;
  }
}
