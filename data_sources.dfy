// The composite files of a Workbench project and the DPF data sources built
// from them. The file system is a value: the set of existing files and, for
// each existing directory, what `iterdir` lists in it. A DPF `DataSources`
// is the sequence of registrations made on it. `resolve()` leaves a path as
// it is: paths are taken to be absolute already.
module DataSourceFiles {
  import opened Common

  /** A path: its parent directory's components and its name. */
  datatype Path = Path(dir: seq<string>, name: string)

  /** The files that exist, and each directory's entries in `iterdir` order. */
  datatype FileSystem = FileSystem(files: set<Path>, dirs: map<Path, seq<Path>>)

  const SolidCompositeDefinitionsPrefix: string := "ACPSolidModel"
  const ShellCompositeDefinitionsPrefix: string := "ACPCompositeDefinitions"
  const SetupFolderPrefix: string := "Setup"
  const H5Suffix: string := ".h5"
  const ExtSuffix: string := "_ext"
  const MatmlFilename: string := "MatML.xml"
  const RstSuffix: string := ".rst"
  const RstPrefix: string := "file"
  const MappingSuffix: string := ".mapping"
  const LayupFileIndexKey: string := "CompositeDefinitions"
  const MappingFileIndexKey: string := "MappingCompositeDefinitions"

  // ----- pathlib -----

  /** `str.rfind('.')`: the position of the last dot, or -1. */
  function LastDot(s: string): (i: int)
    ensures -1 <= i < |s|
    ensures i >= 0 ==> s[i] == '.'
    ensures forall j :: i < j < |s| ==> s[j] != '.'
  {
    if s == [] then -1
    else if s[|s| - 1] == '.' then |s| - 1
    else LastDot(s[..|s| - 1])
  }

  /** pathlib's `suffix`: from the last dot, unless that dot starts or ends the name. */
  function Suffix(name: string): (r: string)
    ensures Stem(name) + r == name
    ensures r != [] ==> |r| >= 2 && r[0] == '.' && forall j :: 0 < j < |r| ==> r[j] != '.'
  {
    var i := LastDot(name);
    if 0 < i < |name| - 1 then name[i..] else ""
  }

  /** pathlib's `stem`: the name without its suffix. */
  function Stem(name: string): string
  {
    var i := LastDot(name);
    if 0 < i < |name| - 1 then name[..i] else name
  }

  /** The last dot of a name is the one after which no dot follows. */
  lemma LastDotAt(s: string, i: int)
    requires 0 <= i < |s| && s[i] == '.' && forall j :: i < j < |s| ==> s[j] != '.'
    ensures LastDot(s) == i
  {
  }

  // ----- file predicates -----

  /** `_is_rst_file`: "file*.rst", and it exists. */
  predicate IsRstFile(fs: FileSystem, p: Path)
  {
    StartsWith(p.name, RstPrefix) && Suffix(p.name) == RstSuffix && p in fs.files
  }

  /** `_is_matml_file`: named "MatML.xml", and it exists. */
  predicate IsMatmlFile(fs: FileSystem, p: Path)
  {
    p.name == MatmlFilename && p in fs.files
  }

  /** `_has_ext_suffix`: the stem ends with "_ext", as in `CompositeDefinitions.1_ext.h5`. */
  predicate HasExtSuffix(p: Path)
  {
    EndsWith(Stem(p.name), ExtSuffix)
  }

  /** `_is_composite_definition_file`: an existing "ACPCompositeDefinitions*.h5" without "_ext". */
  predicate IsCompositeDefinitionFile(fs: FileSystem, p: Path)
  {
    Suffix(p.name) == H5Suffix && p in fs.files && StartsWith(p.name, ShellCompositeDefinitionsPrefix) && !HasExtSuffix(p)
  }

  /** `_is_solid_model_composite_definition_file`: an existing "ACPSolidModel*.h5" without "_ext". */
  predicate IsSolidModelCompositeDefinitionFile(fs: FileSystem, p: Path)
  {
    Suffix(p.name) == H5Suffix && p in fs.files && StartsWith(p.name, SolidCompositeDefinitionsPrefix) && !HasExtSuffix(p)
  }

  /** The kinds of file the folder scans look for. */
  datatype FileKind = RstFile | MatmlFile | ShellDefinition | SolidDefinition

  predicate Matches(fs: FileSystem, kind: FileKind, p: Path)
  {
    match kind
    case RstFile => IsRstFile(fs, p)
    case MatmlFile => IsMatmlFile(fs, p)
    case ShellDefinition => IsCompositeDefinitionFile(fs, p)
    case SolidDefinition => IsSolidModelCompositeDefinitionFile(fs, p)
  }

  /** A name that starts with one of two prefixes that differ at position `k` does not start with the other. */
  lemma PrefixesExclusive(s: string, a: string, b: string, k: nat)
    requires k < |a| && k < |b| && a[k] != b[k]
    ensures StartsWith(s, a) ==> !StartsWith(s, b)
  {
    if StartsWith(s, a) {
      assert s[k] == s[..|a|][k] == a[k];
    }
  }

  /** No file is of two kinds: the scans never pick the same file twice. */
  lemma KindsDisjoint(fs: FileSystem, p: Path)
    ensures !(IsCompositeDefinitionFile(fs, p) && IsSolidModelCompositeDefinitionFile(fs, p))
    ensures !(IsRstFile(fs, p) && (IsMatmlFile(fs, p) || IsCompositeDefinitionFile(fs, p) || IsSolidModelCompositeDefinitionFile(fs, p)))
    ensures !(IsMatmlFile(fs, p) && (IsCompositeDefinitionFile(fs, p) || IsSolidModelCompositeDefinitionFile(fs, p)))
  {
    PrefixesExclusive(p.name, ShellCompositeDefinitionsPrefix, SolidCompositeDefinitionsPrefix, 3);
    PrefixesExclusive(p.name, MatmlFilename, RstPrefix, 0);
    if p.name == MatmlFilename {
      assert !StartsWith(p.name, ShellCompositeDefinitionsPrefix) by { assert |p.name| < |ShellCompositeDefinitionsPrefix|; }
      assert !StartsWith(p.name, SolidCompositeDefinitionsPrefix) by { assert |p.name| < |SolidCompositeDefinitionsPrefix|; }
    }
  }

  /** A shell definition named like the docstring's example, with "_ext" before its suffix, is skipped. */
  lemma ExtDefinitionSkipped(fs: FileSystem, dir: seq<string>)
    ensures !IsCompositeDefinitionFile(fs, Path(dir, "ACPCompositeDefinitions.1_ext.h5"))
  {
    var name := "ACPCompositeDefinitions.1_ext.h5";
    LastDotAt(name, 29);
    assert Stem(name) == "ACPCompositeDefinitions.1_ext";
  }

  /** An existing "ACPCompositeDefinitions.h5" is a shell definition. */
  lemma PlainDefinitionAccepted(fs: FileSystem, dir: seq<string>)
    requires Path(dir, "ACPCompositeDefinitions.h5") in fs.files
    ensures IsCompositeDefinitionFile(fs, Path(dir, "ACPCompositeDefinitions.h5"))
  {
    var name := "ACPCompositeDefinitions.h5";
    LastDotAt(name, 23);
    assert Stem(name) == "ACPCompositeDefinitions";
    assert Suffix(name) == ".h5";
    assert !EndsWith(Stem(name), ExtSuffix) by { assert Stem(name)[22] == 's' != ExtSuffix[3]; }
  }

  /** `_get_mapping_path_file_from_definitions_path_if_exists`: `<stem>.mapping` next to the definition, if it exists. */
  function MappingPath(fs: FileSystem, definition: Path): (r: Option<Path>)
    ensures r.Some? ==> r.value in fs.files && r.value.dir == definition.dir
  {
    var m := Path(definition.dir, Stem(definition.name) + MappingSuffix);
    if m in fs.files then Some(m) else None
  }

  /** The mapping file has the definition's stem and the suffix ".mapping". */
  lemma MappingPathMatchesDefinition(fs: FileSystem, definition: Path)
    requires definition.name != "" && MappingPath(fs, definition).Some?
    ensures Stem(MappingPath(fs, definition).value.name) == Stem(definition.name)
    ensures Suffix(MappingPath(fs, definition).value.name) == MappingSuffix
  {
    var s := Stem(definition.name);
    var name := s + MappingSuffix;
    assert s != "";
    forall j | |s| < j < |name| ensures name[j] != '.' {
      assert name[j] == MappingSuffix[j - |s|];
    }
    LastDotAt(name, |s|);
    assert name[..|s|] == s;
  }

  // ----- folder scans -----

  /** `folder.iterdir()`: a folder that is not an existing directory raises. */
  function Listing(fs: FileSystem, folder: Path): (r: Result<seq<Path>>)
    ensures r.Ok? <==> folder in fs.dirs
    ensures r.Err? ==> r.error == OSError
  {
    if folder in fs.dirs then Ok(fs.dirs[folder]) else Err(OSError)
  }

  /** The entries of a listing that are of a kind, in listing order. */
  function FilesWith(fs: FileSystem, kind: FileKind, entries: seq<Path>): (r: seq<Path>)
    ensures |r| <= |entries|
    ensures forall p :: p in r <==> p in entries && Matches(fs, kind, p)
  {
    if entries == [] then []
    else
      var n := |entries| - 1;
      assert entries == entries[..n] + [entries[n]];
      var below := FilesWith(fs, kind, entries[..n]);
      if Matches(fs, kind, entries[n]) then below + [entries[n]] else below
  }

  /** `_get_file_paths_with_predicate`: the folder's files of a kind. */
  function FilePaths(fs: FileSystem, kind: FileKind, folder: Path): (r: Result<seq<Path>>)
    ensures r.Err? <==> folder !in fs.dirs
    ensures r.Ok? ==> forall p :: p in r.value <==> p in fs.dirs[folder] && Matches(fs, kind, p)
  {
    match Listing(fs, folder)
    case Err(e) => Err(e)
    case Ok(entries) => Ok(FilesWith(fs, kind, entries))
  }

  /** `_get_single_file_path_with_predicate`: the one file of a kind; none or several raise RuntimeError. */
  function SingleFile(fs: FileSystem, kind: FileKind, folder: Path): (r: Result<Path>)
    ensures r.Ok? <==> folder in fs.dirs && |FilesWith(fs, kind, fs.dirs[folder])| == 1
    ensures r.Err? && folder in fs.dirs ==> r.error == RuntimeError
    ensures r.Ok? ==> r.value in fs.dirs[folder] && Matches(fs, kind, r.value)
    ensures r.Ok? ==> forall p :: p in fs.dirs[folder] && Matches(fs, kind, p) ==> p == r.value
  {
    match FilePaths(fs, kind, folder)
    case Err(e) => Err(e)
    case Ok(files) =>
      if |files| != 1 then Err(RuntimeError)
      else
        assert files == [files[0]];
        assert forall p :: p in files ==> p == files[0];
        Ok(files[0])
  }

  /** `_get_single_optional_file_path_with_predicate`: None for no file of a kind; several raise RuntimeError. */
  function OptionalFile(fs: FileSystem, kind: FileKind, folder: Path): (r: Result<Option<Path>>)
    ensures r.Err? <==> folder !in fs.dirs || |FilesWith(fs, kind, fs.dirs[folder])| > 1
    ensures r.Err? && folder in fs.dirs ==> r.error == RuntimeError
    ensures r == Ok(None) <==> folder in fs.dirs && forall p :: p in fs.dirs[folder] ==> !Matches(fs, kind, p)
    ensures r.Ok? && r.value.Some? ==> r.value.value in fs.dirs[folder] && Matches(fs, kind, r.value.value)
    ensures r.Ok? && r.value.Some? ==> forall p :: p in fs.dirs[folder] && Matches(fs, kind, p) ==> p == r.value.value
  {
    match FilePaths(fs, kind, folder)
    case Err(e) => Err(e)
    case Ok(files) =>
      if |files| > 1 then
        assert files[0] in files;
        Err(RuntimeError)
      else if |files| == 0 then Ok(None)
      else
        assert files == [files[0]];
        assert forall p :: p in files ==> p == files[0];
        Ok(Some(files[0]))
  }

  /** The "Setup*" directories of a folder, in listing order. */
  function SetupFolders(fs: FileSystem, folder: Path): (r: Result<seq<Path>>)
    ensures r.Err? <==> folder !in fs.dirs
    ensures r.Ok? ==> forall p :: p in r.value <==> p in fs.dirs[folder] && p in fs.dirs && StartsWith(p.name, SetupFolderPrefix)
  {
    match Listing(fs, folder)
    case Err(e) => Err(e)
    case Ok(entries) => Ok(SetupsIn(fs, entries))
  }

  function SetupsIn(fs: FileSystem, entries: seq<Path>): (r: seq<Path>)
    ensures forall p :: p in r <==> p in entries && p in fs.dirs && StartsWith(p.name, SetupFolderPrefix)
  {
    if entries == [] then []
    else
      var n := |entries| - 1;
      assert entries == entries[..n] + [entries[n]];
      var below := SetupsIn(fs, entries[..n]);
      if entries[n] in fs.dirs && StartsWith(entries[n].name, SetupFolderPrefix) then below + [entries[n]] else below
  }

  // ----- composite files -----

  /** `CompositeDefinitionFiles`: a definition file and its optional mapping file. */
  datatype CompositeDefinitionFiles = CompositeDefinitionFiles(definition: Path, mapping: Option<Path>)

  /** The files recorded for a definition found in a setup folder. */
  function DefinitionFiles(fs: FileSystem, definition: Path): CompositeDefinitionFiles
  {
    CompositeDefinitionFiles(definition, MappingPath(fs, definition))
  }

  /** A single path or a list of them, as `rst` may be given. */
  datatype PathArg = OnePath(path: Path) | PathList(paths: seq<Path>)

  /** `_get_rst_list`: a single path becomes a one-element list; a list is kept as it is. */
  function RstList(value: PathArg): (r: seq<Path>)
    ensures value.OnePath? ==> r == [value.path]
    ensures value.PathList? ==> r == value.paths
  {
    match value
    case OnePath(p) => [p]
    case PathList(ps) => ps
  }

  /** Reading `rst` back and assigning it again changes nothing. */
  lemma RstListStable(value: PathArg)
    ensures RstList(PathList(RstList(value))) == RstList(value)
    ensures |RstList(value)| >= 1 || value == PathList([])
  {
  }

  /** The contents of a `ContinuousFiberCompositesFiles`. */
  datatype CompositeFiles = CompositeFiles(rst: seq<Path>, composite: seq<(string, CompositeDefinitionFiles)>, engineeringData: Path)

  /**
   * `_add_composite_definitons_from_setup_folder` on the composite dict: the
   * folder's shell definition goes under "<folder>_shell", then its solid
   * model definition under "<folder>_solid". A folder with several of one
   * kind raises before anything is added; a key already present raises, and
   * what was added before stays.
   */
  function AddFromSetup(fs: FileSystem, setup: Path, composite: seq<(string, CompositeDefinitionFiles)>)
    : (seq<(string, CompositeDefinitionFiles)>, Option<Error>)
  {
    match OptionalFile(fs, ShellDefinition, setup)
    case Err(e) => (composite, Some(e))
    case Ok(shell) =>
      match OptionalFile(fs, SolidDefinition, setup)
      case Err(e) => (composite, Some(e))
      case Ok(solid) =>
        var afterShell := AddDefinition(fs, composite, setup.name + "_shell", shell);
        if afterShell.1.Some? then afterShell
        else AddDefinition(fs, afterShell.0, setup.name + "_solid", solid)
  }

  /** `composite[key] = files` for a definition found, raising RuntimeError when the key is taken. */
  function AddDefinition(fs: FileSystem, composite: seq<(string, CompositeDefinitionFiles)>, key: string, found: Option<Path>)
    : (seq<(string, CompositeDefinitionFiles)>, Option<Error>)
  {
    if found.None? then (composite, None)
    else if key in KeySet(composite) then (composite, Some(RuntimeError))
    else (composite + [(key, DefinitionFiles(fs, found.value))], None)
  }

  /** The setup folders one after the other; the first failure stops the scan. */
  function AddFromSetups(fs: FileSystem, setups: seq<Path>, composite: seq<(string, CompositeDefinitionFiles)>)
    : (seq<(string, CompositeDefinitionFiles)>, Option<Error>)
  {
    if setups == [] then (composite, None)
    else
      var below := AddFromSetups(fs, setups[..|setups| - 1], composite);
      if below.1.Some? then below else AddFromSetup(fs, setups[|setups| - 1], below.0)
  }

  /** A recorded definition: a shell definition under "*_shell" or a solid model definition under "*_solid", with its mapping file if one exists. */
  predicate WellFormedEntry(fs: FileSystem, e: (string, CompositeDefinitionFiles))
  {
    ((EndsWith(e.0, "_shell") && IsCompositeDefinitionFile(fs, e.1.definition))
     || (EndsWith(e.0, "_solid") && IsSolidModelCompositeDefinitionFile(fs, e.1.definition)))
    && e.1.mapping == MappingPath(fs, e.1.definition)
  }

  predicate WellFormedComposite(fs: FileSystem, composite: seq<(string, CompositeDefinitionFiles)>)
  {
    DistinctKeys(composite) && forall i :: 0 <= i < |composite| ==> WellFormedEntry(fs, composite[i])
  }

  /** Appending an item under a new key keeps the keys distinct. */
  lemma AppendDistinct(d: seq<(string, CompositeDefinitionFiles)>, k: string, v: CompositeDefinitionFiles)
    requires DistinctKeys(d) && k !in KeySet(d)
    ensures DistinctKeys(d + [(k, v)])
    ensures KeySet(d + [(k, v)]) == KeySet(d) + {k}
  {
    var e := d + [(k, v)];
    forall i, j | 0 <= i < j < |e| ensures e[i].0 != e[j].0 {
      if j == |d| {
        assert e[i].0 == d[i].0 && d[i].0 in KeySet(d);
      } else {
        assert e[i] == d[i] && e[j] == d[j];
      }
    }
    KeySetSnoc(e);
    assert e[..|d|] == d;
  }

  /** A key made from a folder name ends with its tag. */
  lemma TaggedKey(name: string, tag: string)
    ensures EndsWith(name + tag, tag)
  {
    assert (name + tag)[|name|..] == tag;
  }

  /**
   * Recording one definition keeps the definitions well formed under
   * distinct keys and keeps what was there; on success the key is added
   * exactly when a definition was found.
   */
  lemma AddDefinitionWellFormed(fs: FileSystem, composite: seq<(string, CompositeDefinitionFiles)>, key: string, found: Option<Path>)
    requires WellFormedComposite(fs, composite)
    requires found.Some? ==> WellFormedEntry(fs, (key, DefinitionFiles(fs, found.value)))
    ensures WellFormedComposite(fs, AddDefinition(fs, composite, key, found).0)
    ensures composite <= AddDefinition(fs, composite, key, found).0
    ensures AddDefinition(fs, composite, key, found).1.None? ==>
      KeySet(AddDefinition(fs, composite, key, found).0) == KeySet(composite) + (if found.Some? then {key} else {})
    ensures AddDefinition(fs, composite, key, found).1.Some? <==> found.Some? && key in KeySet(composite)
  {
    if found.Some? && key !in KeySet(composite) {
      var e := (key, DefinitionFiles(fs, found.value));
      AppendDistinct(composite, key, e.1);
      var after := composite + [e];
      assert after[|composite|] == e;
      assert forall i :: 0 <= i < |composite| ==> after[i] == composite[i];
    }
  }

  /**
   * A setup folder keeps the recorded definitions well formed and their keys
   * distinct, keeps what was there, and on success records exactly its own
   * shell and solid definitions.
   */
  lemma AddFromSetupWellFormed(fs: FileSystem, setup: Path, composite: seq<(string, CompositeDefinitionFiles)>)
    requires WellFormedComposite(fs, composite)
    ensures WellFormedComposite(fs, AddFromSetup(fs, setup, composite).0)
    ensures composite <= AddFromSetup(fs, setup, composite).0
    ensures AddFromSetup(fs, setup, composite).1.None? ==>
      KeySet(AddFromSetup(fs, setup, composite).0) ==
        KeySet(composite)
        + (if OptionalFile(fs, ShellDefinition, setup).value.Some? then {setup.name + "_shell"} else {})
        + (if OptionalFile(fs, SolidDefinition, setup).value.Some? then {setup.name + "_solid"} else {})
  {
    var shell := OptionalFile(fs, ShellDefinition, setup);
    var solid := OptionalFile(fs, SolidDefinition, setup);
    if shell.Ok? && solid.Ok? {
      TaggedKey(setup.name, "_shell");
      TaggedKey(setup.name, "_solid");
      AddDefinitionWellFormed(fs, composite, setup.name + "_shell", shell.value);
      var afterShell := AddDefinition(fs, composite, setup.name + "_shell", shell.value);
      if afterShell.1.None? {
        AddDefinitionWellFormed(fs, afterShell.0, setup.name + "_solid", solid.value);
      }
    }
  }

  /** Scanning setup folders keeps the recorded definitions well formed and keeps what was there. */
  lemma {:induction false} AddFromSetupsWellFormed(fs: FileSystem, setups: seq<Path>, composite: seq<(string, CompositeDefinitionFiles)>)
    requires WellFormedComposite(fs, composite)
    ensures WellFormedComposite(fs, AddFromSetups(fs, setups, composite).0)
    ensures composite <= AddFromSetups(fs, setups, composite).0
  {
    if setups != [] {
      var n := |setups| - 1;
      AddFromSetupsWellFormed(fs, setups[..n], composite);
      var below := AddFromSetups(fs, setups[..n], composite);
      if below.1.None? {
        AddFromSetupWellFormed(fs, setups[n], below.0);
      }
    }
  }

  /** Once the first `n` setup folders fail, the scan of all of them fails the same way. */
  lemma {:induction false} AddFromSetupsFails(fs: FileSystem, setups: seq<Path>, composite: seq<(string, CompositeDefinitionFiles)>, n: int)
    requires 0 <= n <= |setups| && AddFromSetups(fs, setups[..n], composite).1.Some?
    ensures AddFromSetups(fs, setups, composite) == AddFromSetups(fs, setups[..n], composite)
    decreases |setups| - n
  {
    if n < |setups| {
      assert setups[..n + 1][..n] == setups[..n];
      AddFromSetupsFails(fs, setups, composite, n + 1);
    } else {
      assert setups[..n] == setups;
    }
  }

  /**
   * The Workbench scan: the setup folders of `setupParent`, the rst files
   * (at least one) and the single MatML file of `resultFolder`, then each
   * setup folder's definitions; with `ensureFound`, finding none raises.
   */
  function WorkbenchFiles(fs: FileSystem, setupParent: Path, resultFolder: Path, ensureFound: bool): Result<CompositeFiles>
  {
    match FolderInputs(fs, setupParent, resultFolder)
    case Err(e) => Err(e)
    case Ok(inputs) => FinishScan(fs, inputs, ensureFound)
  }

  /** What the scan reads from the folders before it visits the setup folders. */
  datatype ScanInputs = ScanInputs(setups: seq<Path>, rsts: seq<Path>, matml: Path)

  /** The setup folders, then the rst files (none raises RuntimeError), then the one MatML file. */
  function FolderInputs(fs: FileSystem, setupParent: Path, resultFolder: Path): (r: Result<ScanInputs>)
    ensures r.Ok? ==> r.value.rsts != []
  {
    match SetupFolders(fs, setupParent)
    case Err(e) => Err(e)
    case Ok(setups) =>
      match FilePaths(fs, RstFile, resultFolder)
      case Err(e) => Err(e)
      case Ok(rsts) =>
        if rsts == [] then Err(RuntimeError)
        else
          match SingleFile(fs, MatmlFile, resultFolder)
          case Err(e) => Err(e)
          case Ok(matml) => Ok(ScanInputs(setups, rsts, matml))
  }

  /** The definitions of every setup folder; with `ensureFound`, none found raises RuntimeError. */
  function FinishScan(fs: FileSystem, inputs: ScanInputs, ensureFound: bool): Result<CompositeFiles>
  {
    var added := AddFromSetups(fs, inputs.setups, []);
    if added.1.Some? then Err(added.1.value)
    else if ensureFound && added.0 == [] then Err(RuntimeError)
    else Ok(CompositeFiles(inputs.rsts, added.0, inputs.matml))
  }

  /**
   * What a successful scan finds: at least one rst file, every one an rst
   * file of the result folder; its MatML file; well-formed definitions under
   * distinct keys; and, with `ensureFound`, at least one definition.
   */
  lemma WorkbenchFilesFound(fs: FileSystem, setupParent: Path, resultFolder: Path, ensureFound: bool)
    requires WorkbenchFiles(fs, setupParent, resultFolder, ensureFound).Ok?
    ensures var c := WorkbenchFiles(fs, setupParent, resultFolder, ensureFound).value;
      c.rst != [] && resultFolder in fs.dirs
      && (forall i :: 0 <= i < |c.rst| ==> IsRstFile(fs, c.rst[i]) && c.rst[i] in fs.dirs[resultFolder])
      && IsMatmlFile(fs, c.engineeringData) && c.engineeringData in fs.dirs[resultFolder]
      && WellFormedComposite(fs, c.composite)
      && (ensureFound ==> c.composite != [])
  {
    var setups := SetupFolders(fs, setupParent).value;
    AddFromSetupsWellFormed(fs, setups, []);
    var c := WorkbenchFiles(fs, setupParent, resultFolder, ensureFound).value;
    forall i | 0 <= i < |c.rst| ensures IsRstFile(fs, c.rst[i]) && c.rst[i] in fs.dirs[resultFolder] {
      assert c.rst[i] in c.rst;
    }
  }

  /** A readable result folder without rst files, or without exactly one MatML file, raises RuntimeError. */
  lemma WorkbenchFilesRequired(fs: FileSystem, setupParent: Path, resultFolder: Path, ensureFound: bool)
    requires setupParent in fs.dirs && resultFolder in fs.dirs
    ensures (forall p :: p in fs.dirs[resultFolder] ==> !IsRstFile(fs, p)) ==>
      WorkbenchFiles(fs, setupParent, resultFolder, ensureFound) == Err(RuntimeError)
    ensures |FilesWith(fs, MatmlFile, fs.dirs[resultFolder])| != 1 ==>
      WorkbenchFiles(fs, setupParent, resultFolder, ensureFound) == Err(RuntimeError)
  {
    var rsts := FilesWith(fs, RstFile, fs.dirs[resultFolder]);
    if rsts != [] {
      assert rsts[0] in rsts;
    }
  }

  class ContinuousFiberCompositesFiles {
    var rst: seq<Path>
    var composite: seq<(string, CompositeDefinitionFiles)>
    var engineeringData: Path
    /** False once the files have been uploaded to the server. */
    var filesAreLocal: bool

    /** The constructor: `rst` is normalised to a list. */
    constructor (rst: PathArg, composite: seq<(string, CompositeDefinitionFiles)>, engineeringData: Path, filesAreLocal: bool)
      ensures this.rst == RstList(rst) && this.composite == composite
      ensures this.engineeringData == engineeringData && this.filesAreLocal == filesAreLocal
    {
      this.rst := RstList(rst);
      this.composite := composite;
      this.engineeringData := engineeringData;
      this.filesAreLocal := filesAreLocal;
    }

    function Content(): CompositeFiles
      reads this
    {
      CompositeFiles(rst, composite, engineeringData)
    }

    /** `__setattr__("rst", value)`: the value is stored as a list. */
    method SetRst(value: PathArg)
      modifies this`rst
      ensures rst == RstList(value)
    {
      rst := RstList(value);
    }

    /** `_add_composite_definitons_from_setup_folder`: adds the setup folder's definitions to the composite dict. */
    method AddCompositeDefinitionsFromSetupFolder(fs: FileSystem, setup: Path) returns (err: Option<Error>)
      modifies this`composite
      ensures (composite, err) == AddFromSetup(fs, setup, old(composite))
    {
      var shell := OptionalFile(fs, ShellDefinition, setup);
      if shell.Err? {
        return Some(shell.error);
      }
      var solid := OptionalFile(fs, SolidDefinition, setup);
      if solid.Err? {
        return Some(solid.error);
      }
      var afterShell := AddDefinition(fs, composite, setup.name + "_shell", shell.value);
      if afterShell.1.Some? {
        return afterShell.1;
      }
      composite := afterShell.0;
      var afterSolid := AddDefinition(fs, composite, setup.name + "_solid", solid.value);
      composite := afterSolid.0;
      return afterSolid.1;
    }

    /** The loop over the setup folders: each one's definitions in turn; the first failure stops it. */
    method AddCompositeDefinitionsFromSetupFolders(fs: FileSystem, setups: seq<Path>) returns (err: Option<Error>)
      modifies this`composite
      ensures (composite, err) == AddFromSetups(fs, setups, old(composite))
    {
      var i := 0;
      while i < |setups|
        invariant 0 <= i <= |setups|
        invariant AddFromSetups(fs, setups[..i], old(composite)) == (composite, None)
      {
        assert setups[..i + 1][..i] == setups[..i];
        err := AddCompositeDefinitionsFromSetupFolder(fs, setups[i]);
        if err.Some? {
          AddFromSetupsFails(fs, setups, old(composite), i + 1);
          return;
        }
        i := i + 1;
      }
      assert setups[..i] == setups;
      return None;
    }
  }

  /** The folder scan both Workbench entry points share: a fresh, local files object on success. */
  method CollectCompositeFiles(fs: FileSystem, setupParent: Path, resultFolder: Path, ensureFound: bool)
    returns (r: Result<ContinuousFiberCompositesFiles>)
    ensures r.Err? <==> WorkbenchFiles(fs, setupParent, resultFolder, ensureFound).Err?
    ensures r.Err? ==> r.error == WorkbenchFiles(fs, setupParent, resultFolder, ensureFound).error
    ensures r.Ok? ==> fresh(r.value) && r.value.filesAreLocal
    ensures r.Ok? ==> r.value.Content() == WorkbenchFiles(fs, setupParent, resultFolder, ensureFound).value
  {
    var inputs := FolderInputs(fs, setupParent, resultFolder);
    if inputs.Err? {
      return Err(inputs.error);
    }
    var files := new ContinuousFiberCompositesFiles(PathList(inputs.value.rsts), [], inputs.value.matml, true);
    var err := files.AddCompositeDefinitionsFromSetupFolders(fs, inputs.value.setups);
    if err.Some? {
      return Err(err.value);
    }
    if ensureFound && files.composite == [] {
      return Err(RuntimeError);
    }
    return Ok(files);
  }

  /** `get_composite_files_from_workbench_result_folder`: setups, rst and MatML files all from the one result folder. */
  method GetCompositeFilesFromWorkbenchResultFolder(fs: FileSystem, resultFolder: Path, ensureFound: bool)
    returns (r: Result<ContinuousFiberCompositesFiles>)
    ensures r.Err? <==> WorkbenchFiles(fs, resultFolder, resultFolder, ensureFound).Err?
    ensures r.Ok? ==> fresh(r.value) && r.value.Content() == WorkbenchFiles(fs, resultFolder, resultFolder, ensureFound).value
  {
    r := CollectCompositeFiles(fs, resultFolder, resultFolder, ensureFound);
  }

  /** `composite_files_from_workbench_harmonic_analysis`: setups from the modal folder, rst and MatML from the harmonic one, and no check that definitions were found. */
  method CompositeFilesFromWorkbenchHarmonicAnalysis(fs: FileSystem, modalFolder: Path, harmonicFolder: Path)
    returns (r: Result<ContinuousFiberCompositesFiles>)
    ensures r.Err? <==> WorkbenchFiles(fs, modalFolder, harmonicFolder, false).Err?
    ensures r.Ok? ==> fresh(r.value) && r.value.Content() == WorkbenchFiles(fs, modalFolder, harmonicFolder, false).value
  {
    r := CollectCompositeFiles(fs, modalFolder, harmonicFolder, false);
  }

  // ----- data sources -----

  /** One registration on a DPF `DataSources`. */
  datatype SourceEntry =
    | ResultFile(path: Path)
    | DomainResultFile(path: Path, domain: nat)
    | FilePath(path: Path, key: string)
    | FilePathForResult(path: Path, key: string, resultKey: string)

  /** A DPF `DataSources`: its registrations in order. */
  type DataSources = seq<SourceEntry>

  /** `CompositeDataSources`. */
  datatype CompositeDataSources = CompositeDataSources(
    rst: DataSources,
    materialSupport: DataSources,
    composite: DataSources,
    engineeringData: DataSources,
    oldCompositeSources: seq<(string, DataSources)>)

  /** The registrations of the rst files: one result file, or one domain per file. */
  function RstSources(rsts: seq<Path>): DataSources
  {
    if |rsts| == 1 then [ResultFile(rsts[0])]
    else seq(|rsts|, i requires 0 <= i < |rsts| => DomainResultFile(rsts[i], i))
  }

  /** Every rst file is registered once, in order; distributed files get domains 0, 1, ... */
  lemma RstFilesRegistered(rsts: seq<Path>)
    ensures |RstSources(rsts)| == |rsts|
    ensures forall i :: 0 <= i < |rsts| ==> RstSources(rsts)[i].path == rsts[i]
    ensures |rsts| != 1 ==> forall i :: 0 <= i < |rsts| ==> RstSources(rsts)[i] == DomainResultFile(rsts[i], i)
  {
  }

  /** `_get_data_sources_from_rst_files`. */
  method DataSourcesFromRstFiles(rsts: seq<Path>) returns (ds: DataSources)
    ensures ds == RstSources(rsts)
  {
    if |rsts| == 1 {
      return [ResultFile(rsts[0])];
    }
    ds := [];
    var idx := 0;
    while idx < |rsts|
      invariant 0 <= idx <= |rsts|
      invariant |ds| == idx && forall i :: 0 <= i < idx ==> ds[i] == DomainResultFile(rsts[i], i)
    {
      ds := ds + [DomainResultFile(rsts[idx], idx)];
      idx := idx + 1;
    }
  }

  /** The registrations of one definition: for a given part when there are several, else plain. */
  function DefinitionSources(key: string, files: CompositeDefinitionFiles, setPartKey: bool): DataSources
  {
    (if setPartKey then [FilePathForResult(files.definition, LayupFileIndexKey, key)]
     else [FilePath(files.definition, LayupFileIndexKey)])
    + (if files.mapping.None? then []
       else if setPartKey then [FilePathForResult(files.mapping.value, MappingFileIndexKey, key)]
       else [FilePath(files.mapping.value, MappingFileIndexKey)])
  }

  /** The separate data sources of one definition, for servers older than 7.0. */
  function OldDefinitionSources(files: CompositeDefinitionFiles): DataSources
  {
    [FilePath(files.definition, LayupFileIndexKey)]
    + (if files.mapping.None? then [] else [FilePath(files.mapping.value, MappingFileIndexKey)])
  }

  /** The composite data sources: the definitions' registrations in dict order. */
  function CompositeSources(items: seq<(string, CompositeDefinitionFiles)>, setPartKey: bool): DataSources
  {
    if items == [] then []
    else
      var n := |items| - 1;
      CompositeSources(items[..n], setPartKey) + DefinitionSources(items[n].0, items[n].1, setPartKey)
  }

  /** The old per-definition data sources, by key. */
  function OldCompositeSources(items: seq<(string, CompositeDefinitionFiles)>): seq<(string, DataSources)>
  {
    if items == [] then []
    else
      var n := |items| - 1;
      Put(OldCompositeSources(items[..n]), items[n].0, OldDefinitionSources(items[n].1))
  }

  /**
   * `get_composites_data_sources`: no rst file raises RuntimeError; the
   * material support is the first rst file's data sources; definitions are
   * registered for their part exactly when there are several.
   */
  function CompositeDataSourcesOf(c: CompositeFiles): (r: Result<CompositeDataSources>)
    ensures r.Err? <==> c.rst == []
    ensures r.Err? ==> r.error == RuntimeError
  {
    if c.rst == [] then Err(RuntimeError)
    else
      var rstSources := RstSources(c.rst);
      var materialSupport := if |c.rst| == 1 then rstSources else RstSources([c.rst[0]]);
      var setPartKey := |c.composite| > 1;
      Ok(CompositeDataSources(rstSources, materialSupport, CompositeSources(c.composite, setPartKey),
                              [FilePath(c.engineeringData, "EngineeringData")], OldCompositeSources(c.composite)))
  }

  /** The material support always comes from the first rst file alone. */
  lemma MaterialSupportFromFirstRst(c: CompositeFiles)
    requires c.rst != []
    ensures CompositeDataSourcesOf(c).value.materialSupport == [ResultFile(c.rst[0])]
  {
  }

  /**
   * Every registration of the composite data sources names a part exactly
   * when there are several definitions, and every definition is registered.
   */
  lemma {:induction false} PartKeyIffSeveral(items: seq<(string, CompositeDefinitionFiles)>, setPartKey: bool)
    ensures forall e :: e in CompositeSources(items, setPartKey) ==> (e.FilePathForResult? <==> setPartKey) && (e.FilePath? <==> !setPartKey)
    ensures forall i :: 0 <= i < |items| ==>
      (if setPartKey then FilePathForResult(items[i].1.definition, LayupFileIndexKey, items[i].0)
       else FilePath(items[i].1.definition, LayupFileIndexKey)) in CompositeSources(items, setPartKey)
  {
    if items != [] {
      var n := |items| - 1;
      PartKeyIffSeveral(items[..n], setPartKey);
      forall i | 0 <= i < |items|
        ensures (if setPartKey then FilePathForResult(items[i].1.definition, LayupFileIndexKey, items[i].0)
                 else FilePath(items[i].1.definition, LayupFileIndexKey)) in CompositeSources(items, setPartKey)
      {
        if i < n {
          assert items[..n][i] == items[i];
        } else {
          var d := DefinitionSources(items[n].0, items[n].1, setPartKey);
          assert d[0] in d;
        }
      }
    }
  }

  /** The old data sources have exactly the definitions' keys. */
  lemma {:induction false} OldSourcesKeys(items: seq<(string, CompositeDefinitionFiles)>)
    ensures KeySet(OldCompositeSources(items)) == KeySet(items)
  {
    if items != [] {
      var n := |items| - 1;
      OldSourcesKeys(items[..n]);
      PutKeys(OldCompositeSources(items[..n]), items[n].0, OldDefinitionSources(items[n].1));
      KeySetSnoc(items);
    }
  }

  /** Under each definition's key, the old data sources hold that definition's files. */
  lemma {:induction false} OldSourcesAt(items: seq<(string, CompositeDefinitionFiles)>, i: int)
    requires DistinctKeys(items) && 0 <= i < |items|
    ensures Lookup(OldCompositeSources(items), items[i].0) == Some(OldDefinitionSources(items[i].1))
  {
    var n := |items| - 1;
    var below := OldCompositeSources(items[..n]);
    if i < n {
      assert DistinctKeys(items[..n]);
      OldSourcesAt(items[..n], i);
      assert items[..n][i] == items[i];
      assert items[i].0 != items[n].0;
      PutOther(below, items[n].0, OldDefinitionSources(items[n].1), items[i].0);
    } else {
      PutGet(below, items[n].0, OldDefinitionSources(items[n].1));
    }
  }

  /** `get_composites_data_sources` on a files object. */
  method GetCompositesDataSources(files: ContinuousFiberCompositesFiles) returns (r: Result<CompositeDataSources>)
    ensures r == CompositeDataSourcesOf(files.Content())
  {
    if files.rst == [] {
      return Err(RuntimeError);
    }
    var rstSources := DataSourcesFromRstFiles(files.rst);
    var materialSupport := rstSources;
    if |files.rst| != 1 {
      materialSupport := DataSourcesFromRstFiles([files.rst[0]]);
    }
    var engineeringData := [FilePath(files.engineeringData, "EngineeringData")];
    var items := files.composite;
    var setPartKey := |items| > 1;
    var compositeSources: DataSources := [];
    var oldSources: seq<(string, DataSources)> := [];
    var i := 0;
    while i < |items|
      invariant 0 <= i <= |items|
      invariant compositeSources == CompositeSources(items[..i], setPartKey)
      invariant oldSources == OldCompositeSources(items[..i])
    {
      assert items[..i + 1][..i] == items[..i];
      var key := items[i].0;
      var definition := items[i].1;
      if setPartKey {
        compositeSources := compositeSources + [FilePathForResult(definition.definition, LayupFileIndexKey, key)];
      } else {
        compositeSources := compositeSources + [FilePath(definition.definition, LayupFileIndexKey)];
      }
      if definition.mapping.Some? {
        if setPartKey {
          compositeSources := compositeSources + [FilePathForResult(definition.mapping.value, MappingFileIndexKey, key)];
        } else {
          compositeSources := compositeSources + [FilePath(definition.mapping.value, MappingFileIndexKey)];
        }
      }
      var separate := [FilePath(definition.definition, LayupFileIndexKey)];
      if definition.mapping.Some? {
        separate := separate + [FilePath(definition.mapping.value, MappingFileIndexKey)];
      }
      assert separate == OldDefinitionSources(definition);
      oldSources := Put(oldSources, key, separate);
      i := i + 1;
    }
    assert items[..i] == items;
    return Ok(CompositeDataSources(rstSources, materialSupport, compositeSources, engineeringData, oldSources));
  }

  class ShortFiberCompositesFiles {
    var rst: seq<Path>
    /** The solver input file, `ds.dat`. */
    var dsdat: Path
    var engineeringData: Path
    var filesAreLocal: bool

    /** The constructor: `rst` is normalised to a list. */
    constructor (rst: PathArg, dsdat: Path, engineeringData: Path, filesAreLocal: bool)
      ensures this.rst == RstList(rst) && this.dsdat == dsdat
      ensures this.engineeringData == engineeringData && this.filesAreLocal == filesAreLocal
    {
      this.rst := RstList(rst);
      this.dsdat := dsdat;
      this.engineeringData := engineeringData;
      this.filesAreLocal := filesAreLocal;
    }

    /** `__setattr__("rst", value)`: the value is stored as a list. */
    method SetRst(value: PathArg)
      modifies this`rst
      ensures rst == RstList(value)
    {
      rst := RstList(value);
    }
  }

  /** `get_short_fiber_composites_data_sources`: the rst files, then the solver input and the engineering data. */
  method GetShortFiberCompositesDataSources(files: ShortFiberCompositesFiles) returns (ds: DataSources)
    ensures |ds| == |files.rst| + 2
    ensures ds[..|files.rst|] == RstSources(files.rst)
    ensures ds[|files.rst|..] == [FilePath(files.dsdat, "dat"), FilePath(files.engineeringData, "EngineeringData")]
  {
    ds := DataSourcesFromRstFiles(files.rst);
    RstFilesRegistered(files.rst);
    ds := ds + [FilePath(files.dsdat, "dat")];
    ds := ds + [FilePath(files.engineeringData, "EngineeringData")];
  }
}
