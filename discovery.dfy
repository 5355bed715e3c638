/** Registry discovery (`get_lambada_class` in lambada/common.py), with file
    system access, module loading and reflection replaced by their results:
    a path is a directory listing of `.py` files in glob order, a single
    file, or nothing; loading a file either fails or yields the module's
    attributes in `dir()` order. */
module Discovery {
  import opened Values
  import opened Registry

  /** What `getattr(module, name, None)` gives for one attribute name. */
  datatype AttrValue =
    | TuneInstance(tune: Lambada)   // an instance of `Lambada`
    | OtherObject                   // anything else, `None` included
    | RaisesImportError             // getattr raised ImportError; treated as None

  datatype Attribute = Attribute(name: string, value: AttrValue)

  /** Outcome of `imp.load_source` for one file. */
  datatype LoadResult = Loaded(attrs: seq<Attribute>) | LoadFailed(error: Exception)

  datatype SourceFile = SourceFile(path: string, load: LoadResult)

  /** The path given to discovery, as `os.path.isdir`/`isfile` classify it. */
  datatype PathKind = Directory(pyFiles: seq<SourceFile>) | RegularFile(file: SourceFile) | Nonexistent

  /** The name a module is loaded under: `__temp__` for a single file,
      `__temp<n>__` for the n-th successful load of a directory scan. */
  datatype ModuleName = Temp | TempNumbered(n: nat)

  datatype Module = Module(name: ModuleName, attrs: seq<Attribute>)

  /** The modules a directory scan keeps, numbered from `counter` on: failed
      loads are skipped and do not advance the counter. */
  function Loads(files: seq<SourceFile>, counter: nat): (ms: seq<Module>)
    ensures |ms| <= |files|
    ensures forall i :: 0 <= i < |ms| ==> ms[i].name == TempNumbered(counter + i)
    decreases |files|
  {
    if files == [] then []
    else match files[0].load
      case Loaded(attrs) => [Module(TempNumbered(counter), attrs)] + Loads(files[1..], counter + 1)
      case LoadFailed(_) => Loads(files[1..], counter)
  }

  /** The message echoed for every file that failed to load. */
  function ImportReports(files: seq<SourceFile>): (reports: seq<string>)
    decreases |files|
  {
    if files == [] then []
    else match files[0].load
      case Loaded(_) => ImportReports(files[1..])
      case LoadFailed(_) => ["Unable to import " + files[0].path] + ImportReports(files[1..])
  }

  /** Each file the scan reaches contributes exactly one thing, in order: a
      module holding that file's attributes under the next number if it
      loads, its "Unable to import" line if it fails. */
  lemma {:induction false} LoadsSnoc(files: seq<SourceFile>, f: SourceFile, counter: nat)
    ensures Loads(files + [f], counter) == Loads(files, counter) +
      (if f.load.Loaded? then [Module(TempNumbered(counter + |Loads(files, counter)|), f.load.attrs)] else [])
    ensures ImportReports(files + [f]) == ImportReports(files) +
      (if f.load.LoadFailed? then ["Unable to import " + f.path] else [])
    decreases |files|
  {
    if files == [] {
      assert files + [f] == [f] && [f][1..] == [];
    } else {
      var next := if files[0].load.Loaded? then counter + 1 else counter;
      LoadsSnoc(files[1..], f, next);
      assert (files + [f])[0] == files[0];
      assert (files + [f])[1..] == files[1..] + [f];
    }
  }

  /** The kept modules and the failure reports together number exactly the
      files of the scan. */
  lemma {:induction false} LoadsAccountForEveryFile(files: seq<SourceFile>, counter: nat)
    ensures |Loads(files, counter)| + |ImportReports(files)| == |files|
    decreases |files|
  {
    if files != [] {
      LoadsAccountForEveryFile(files[1..], if files[0].load.Loaded? then counter + 1 else counter);
    }
  }

  /** A file that fails to load changes nothing about the scan: neither the
      modules kept nor their numbering. */
  lemma {:induction false} FailedLoadIsSkipped(before: seq<SourceFile>, failed: SourceFile,
                                              after: seq<SourceFile>, counter: nat)
    requires failed.load.LoadFailed?
    ensures Loads(before + [failed] + after, counter) == Loads(before + after, counter)
    decreases |before|
  {
    if before == [] {
      assert before + [failed] + after == [failed] + after && before + after == after;
      assert ([failed] + after)[0] == failed && ([failed] + after)[1..] == after;
    } else {
      var next := if before[0].load.Loaded? then counter + 1 else counter;
      FailedLoadIsSkipped(before[1..], failed, after, next);
      assert (before + [failed] + after)[0] == before[0] == (before + after)[0];
      assert (before + [failed] + after)[1..] == before[1..] + [failed] + after;
      assert (before + after)[1..] == before[1..] + after;
    }
  }

  /** The directory scan of `get_lambada_class`: load every file in glob
      order, keep the successes numbered consecutively, echo the failures. */
  method LoadDirectory(files: seq<SourceFile>) returns (modules: seq<Module>, reports: seq<string>)
    ensures modules == Loads(files, 0)
    ensures reports == ImportReports(files)
  {
    modules, reports := [], [];
    var counter: nat := 0;
    for i := 0 to |files|
      invariant counter == |modules|
      invariant modules + Loads(files[i..], counter) == Loads(files, 0)
      invariant reports + ImportReports(files[i..]) == ImportReports(files)
    {
      ghost var rest := files[i..];
      assert rest[0] == files[i] && rest[1..] == files[i + 1..];
      match files[i].load {
        case Loaded(attrs) =>
          var m := Module(TempNumbered(counter), attrs);
          assert Loads(rest, counter) == [m] + Loads(files[i + 1..], counter + 1);
          assert ImportReports(rest) == ImportReports(files[i + 1..]);
          assert (modules + [m]) + Loads(files[i + 1..], counter + 1) == modules + ([m] + Loads(files[i + 1..], counter + 1));
          modules := modules + [m];
          counter := counter + 1;
        case LoadFailed(_) =>
          var report := "Unable to import " + files[i].path;
          assert Loads(rest, counter) == Loads(files[i + 1..], counter);
          assert ImportReports(rest) == [report] + ImportReports(files[i + 1..]);
          assert (reports + [report]) + ImportReports(files[i + 1..]) == reports + ([report] + ImportReports(files[i + 1..]));
          reports := reports + [report];
      }
    }
    assert files[|files|..] == [];
  }

  /** Index of the first `Lambada` instance among `attrs`, `|attrs|` if none. */
  function FirstTuneIndex(attrs: seq<Attribute>): (k: nat)
    ensures k <= |attrs|
    ensures k < |attrs| ==> attrs[k].value.TuneInstance?
    ensures forall j :: 0 <= j < k ==> !attrs[j].value.TuneInstance?
    decreases |attrs|
  {
    if attrs == [] then 0
    else if attrs[0].value.TuneInstance? then 0
    else 1 + FirstTuneIndex(attrs[1..])
  }

  /** The first `Lambada` instance among one module's attributes. */
  function FirstTuneIn(attrs: seq<Attribute>): (r: Option<Lambada>)
    ensures r.None? <==> forall j :: 0 <= j < |attrs| ==> !attrs[j].value.TuneInstance?
  {
    var k := FirstTuneIndex(attrs);
    if k < |attrs| then Some(attrs[k].value.tune) else None
  }

  /** The first `Lambada` instance over the modules in load order. */
  function FirstTune(modules: seq<Module>): (r: Option<Lambada>)
    decreases |modules|
  {
    if modules == [] then None
    else if FirstTuneIn(modules[0].attrs).Some? then FirstTuneIn(modules[0].attrs)
    else FirstTune(modules[1..])
  }

  /** Every attribute of every module, in scan order. */
  function Flatten(modules: seq<Module>): seq<Attribute>
    decreases |modules|
  {
    if modules == [] then [] else modules[0].attrs + Flatten(modules[1..])
  }

  /** A first match in `a + b` is the first match in `a`, else the one in `b`. */
  lemma FirstTuneInConcat(a: seq<Attribute>, b: seq<Attribute>)
    ensures FirstTuneIn(a + b) == if FirstTuneIn(a).Some? then FirstTuneIn(a) else FirstTuneIn(b)
  {
    var k := if FirstTuneIndex(a) < |a| then FirstTuneIndex(a) else |a| + FirstTuneIndex(b);
    FirstTuneIndexUnique(a + b, k);
  }

  /** The contract of `FirstTuneIndex` pins its result down. */
  lemma FirstTuneIndexUnique(attrs: seq<Attribute>, k: nat)
    requires k <= |attrs|
    requires k < |attrs| ==> attrs[k].value.TuneInstance?
    requires forall j :: 0 <= j < k ==> !attrs[j].value.TuneInstance?
    ensures FirstTuneIndex(attrs) == k
  {
  }

  /** Breaking out of both loops at the first hit finds the first `Lambada`
      instance in the concatenated scan order: modules in load order, the
      attributes of each in order. */
  lemma {:induction false} FirstTuneIsFirstInScanOrder(modules: seq<Module>)
    ensures FirstTune(modules) == FirstTuneIn(Flatten(modules))
    decreases |modules|
  {
    if modules != [] {
      FirstTuneIsFirstInScanOrder(modules[1..]);
      FirstTuneInConcat(modules[0].attrs, Flatten(modules[1..]));
    }
  }

  /** The selection loops of `get_lambada_class`. */
  method FindTune(modules: seq<Module>) returns (tune: Option<Lambada>)
    ensures tune == FirstTune(modules)
    ensures tune == FirstTuneIn(Flatten(modules))
  {
    tune := None;
    var i := 0;
    while i < |modules|
      invariant 0 <= i <= |modules|
      invariant tune.None?
      invariant FirstTune(modules) == FirstTune(modules[i..])
    {
      assert modules[i..][1..] == modules[i + 1..];
      var attrs := modules[i].attrs;
      var found: Option<Lambada> := None;
      var j := 0;
      while j < |attrs|
        invariant 0 <= j <= |attrs|
        invariant forall j' :: 0 <= j' < j ==> !attrs[j'].value.TuneInstance?
      {
        if attrs[j].value.TuneInstance? {
          found := Some(attrs[j].value.tune);
          break;
        }
        j := j + 1;
      }
      assert found == FirstTuneIn(attrs);
      if found.Some? {
        tune := found;
        break;
      }
      i := i + 1;
    }
    FirstTuneIsFirstInScanOrder(modules);
  }

  /** `get_lambada_class`: a missing path raises "Path does not exist"; a
      single file is loaded as `__temp__` and a failure to load it
      propagates; a directory is scanned, skipping files that fail to load.
      The result is the first `Lambada` instance found, or None. */
  method GetLambadaClass(path: PathKind) returns (r: Result<Option<Lambada>>, reports: seq<string>)
    ensures path.Nonexistent? ==> r == Failure(ClickException("Path does not exist")) && reports == []
    ensures path.RegularFile? && path.file.load.LoadFailed? ==>
      r == Failure(path.file.load.error) && reports == []
    ensures path.RegularFile? && path.file.load.Loaded? ==>
      r == Success(FirstTuneIn(path.file.load.attrs)) && reports == []
    ensures path.Directory? ==>
      r == Success(FirstTuneIn(Flatten(Loads(path.pyFiles, 0)))) && reports == ImportReports(path.pyFiles)
  {
    var modules: seq<Module>;
    reports := [];
    match path {
      case Directory(files) =>
        modules, reports := LoadDirectory(files);
      case RegularFile(file) =>
        match file.load {
          case LoadFailed(e) =>
            return Failure(e), reports;
          case Loaded(attrs) =>
            modules := [Module(Temp, attrs)];
            assert Flatten(modules) == attrs + Flatten([]);
        }
      case Nonexistent =>
        return Failure(ClickException("Path does not exist")), reports;
    }
    var tune := FindTune(modules);
    r := Success(tune);
  }

  /** One file that fails to load beside the others does not change what
      discovery finds in the directory. */
  lemma FailingFileDoesNotHideTune(before: seq<SourceFile>, failed: SourceFile, after: seq<SourceFile>)
    requires failed.load.LoadFailed?
    ensures FirstTune(Loads(before + [failed] + after, 0)) == FirstTune(Loads(before + after, 0))
  {
    FailedLoadIsSkipped(before, failed, after, 0);
  }
}
