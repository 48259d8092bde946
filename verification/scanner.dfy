/** The scan for prompt files other AI tools already keep in the working
    directory (internal/init/scanner.go). The known-tool table is a parameter:
    a map from tool name to where that tool keeps its file. */
module InitScanner {
  import opened Outcomes
  import opened Text
  import opened Paths
  import opened FileSystem
  import opened Iteration

  /** A tool's prompt file found in the working directory. */
  datatype ExistingFile = ExistingFile(path: string, toolName: string, content: string)

  /** Where a known tool keeps its file: a directory below the working
      directory (empty for the working directory itself) and a file name. */
  datatype ToolPaths = ToolPaths(dirName: string, fileName: string)

  /** The path probed for a tool. */
  function ProbePath(workDir: string, paths: ToolPaths): string {
    if paths.dirName == "" then Join(workDir, paths.fileName)
    else Join3(workDir, paths.dirName, paths.fileName)
  }

  /** makeRelativePath: the path relative to the working directory, or the
      path itself when no relative form exists. */
  function MakeRelativePath(workDir: string, fullPath: string): string {
    match Rel(workDir, fullPath)
    case Some(rel) => rel
    case None => fullPath
  }

  /** findToolFile: Ok(None) when the path is missing, a directory, or holds
      only white space; an error when it cannot be examined or read; else the
      file, its content trimmed. */
  function FindToolFile(workDir: string, toolName: string, paths: ToolPaths, d: Disk)
    : (r: Result<Option<ExistingFile>>)
    ensures r.Err? <==>
      || Stat(d, ProbePath(workDir, paths)) == StatError
      || (Stat(d, ProbePath(workDir, paths)) == IsFile && ProbePath(workDir, paths) in d.locked)
    ensures r.Err? && Stat(d, ProbePath(workDir, paths)) == StatError ==> r.error == StatFailed(ProbePath(workDir, paths))
    ensures r.Err? && Stat(d, ProbePath(workDir, paths)) == IsFile ==> r.error == ReadFailed(ProbePath(workDir, paths))
    ensures r == Ok(None) <==>
      || Stat(d, ProbePath(workDir, paths)) in {NotExist, IsDir}
      || (Stat(d, ProbePath(workDir, paths)) == IsFile && ProbePath(workDir, paths) !in d.locked
          && AllSpace(d.nodes[ProbePath(workDir, paths)].content))
    ensures r.Ok? && r.value.Some? ==>
      && Stat(d, ProbePath(workDir, paths)) == IsFile && ProbePath(workDir, paths) !in d.locked
      && r.value.value.toolName == toolName
      && r.value.value.path == MakeRelativePath(workDir, ProbePath(workDir, paths))
      && r.value.value.content == TrimSpace(d.nodes[ProbePath(workDir, paths)].content)
      && r.value.value.content != []
  {
    var filePath := ProbePath(workDir, paths);
    match Stat(d, filePath)
    case NotExist => Ok(None)
    case StatError => Err(StatFailed(filePath))
    case IsDir => Ok(None)
    case IsFile =>
      match ReadFile(d, filePath)
      case Err(_) => Err(ReadFailed(filePath))
      case Ok(raw) =>
        var content := TrimSpace(raw);
        if content == "" then Ok(None)
        else Ok(Some(ExistingFile(MakeRelativePath(workDir, filePath), toolName, content)))
  }

  /** The scan over the tools in the order `order` visits them; the first
      failing tool aborts it. */
  function Scanned(workDir: string, table: map<string, ToolPaths>, order: seq<string>, d: Disk)
    : Result<seq<ExistingFile>>
    requires forall k :: k in order ==> k in table
  {
    if order == [] then Ok([])
    else
      var tool := order[|order| - 1];
      match Scanned(workDir, table, order[..|order| - 1], d)
      case Err(e) => Err(e)
      case Ok(files) =>
        match FindToolFile(workDir, tool, table[tool], d)
        case Err(e) => Err(ScanFailed(tool, e))
        case Ok(None) => Ok(files)
        case Ok(Some(file)) => Ok(files + [file])
  }

  /** ScanExistingFiles: probes every known tool once. */
  method ScanExistingFiles(workDir: string, table: map<string, ToolPaths>, order: seq<string>, d: Disk)
    returns (r: Result<seq<ExistingFile>>)
    requires Enumerates(order, table.Keys)
    ensures r == Scanned(workDir, table, order, d)
  {
    var files: seq<ExistingFile> := [];
    for i := 0 to |order|
      invariant Scanned(workDir, table, order[..i], d) == Ok(files)
    {
      var next := ScanStep(workDir, table, order, i, files, d);
      if next.Err? {
        ScannedAbsorbsError(workDir, table, order, i + 1, d);
        return next;
      }
      files := next.value;
    }
    assert order[..|order|] == order;
    return Ok(files);
  }

  /** One probe of ScanExistingFiles' loop: the scan of one more tool. */
  method ScanStep(workDir: string, table: map<string, ToolPaths>, order: seq<string>, i: nat,
                  files: seq<ExistingFile>, d: Disk) returns (next: Result<seq<ExistingFile>>)
    requires forall k :: k in order ==> k in table
    requires i < |order| && Scanned(workDir, table, order[..i], d) == Ok(files)
    ensures next == Scanned(workDir, table, order[..i + 1], d)
  {
    var toolName := order[i];
    var found := FindToolFile(workDir, toolName, table[toolName], d);
    assert order[..i + 1][..i] == order[..i];
    if found.Err? {
      return Err(ScanFailed(toolName, found.error));
    }
    if found.value.Some? {
      return Ok(files + [found.value.value]);
    }
    return Ok(files);
  }

  /** Once a prefix of the scan fails, the whole scan fails the same way. */
  lemma {:induction false} ScannedAbsorbsError(workDir: string, table: map<string, ToolPaths>, order: seq<string>, n: nat, d: Disk)
    requires forall k :: k in order ==> k in table
    requires n <= |order| && Scanned(workDir, table, order[..n], d).Err?
    ensures Scanned(workDir, table, order, d) == Scanned(workDir, table, order[..n], d)
    decreases |order| - n
  {
    if n < |order| {
      assert order[..n + 1][..n] == order[..n];
      ScannedAbsorbsError(workDir, table, order, n + 1, d);
    } else {
      assert order[..n] == order;
    }
  }

  /** A successful scan reports exactly the tools whose file was found. */
  lemma {:induction false} ScannedMembers(workDir: string, table: map<string, ToolPaths>, order: seq<string>, d: Disk)
    requires forall k :: k in order ==> k in table
    requires Scanned(workDir, table, order, d).Ok?
    ensures forall f :: f in Scanned(workDir, table, order, d).value <==>
      exists k :: k in order && FindToolFile(workDir, k, table[k], d) == Ok(Some(f))
  {
    if order != [] {
      var init := order[..|order| - 1];
      var last := order[|order| - 1];
      assert order == init + [last];
      ScannedMembers(workDir, table, init, d);
      forall f | exists k :: k in order && FindToolFile(workDir, k, table[k], d) == Ok(Some(f))
        ensures f in Scanned(workDir, table, order, d).value
      {
        var k :| k in order && FindToolFile(workDir, k, table[k], d) == Ok(Some(f));
        if k != last { assert k in init; }
      }
    }
  }

  /** One more tool adds at most one entry, named after that tool, behind
      the entries so far. */
  lemma ScannedStep(workDir: string, table: map<string, ToolPaths>, order: seq<string>, d: Disk)
    requires forall k :: k in order ==> k in table
    requires order != [] && Scanned(workDir, table, order, d).Ok?
    ensures var init := order[..|order| - 1];
      && (forall k :: k in init ==> k in table)
      && Scanned(workDir, table, init, d).Ok?
      && var before := Scanned(workDir, table, init, d).value;
         var after := Scanned(workDir, table, order, d).value;
         && |before| <= |after| <= |before| + 1
         && after[..|before|] == before
         && (|after| == |before| + 1 ==> after[|before|].toolName == order[|order| - 1])
  {
    var init := order[..|order| - 1];
    assert forall k :: k in init ==> k in order;
  }

  /** A successful scan has at most one entry per visited tool, each named
      after a tool it visited, and (the tools being distinct) no tool twice. */
  lemma {:induction false} ScannedOnePerTool(workDir: string, table: map<string, ToolPaths>, order: seq<string>, d: Disk)
    requires forall k :: k in order ==> k in table
    requires Scanned(workDir, table, order, d).Ok?
    ensures |Scanned(workDir, table, order, d).value| <= |order|
    ensures forall f :: f in Scanned(workDir, table, order, d).value ==> f.toolName in order
    ensures Distinct(order) ==> forall i, j ::
      0 <= i < j < |Scanned(workDir, table, order, d).value| ==>
        Scanned(workDir, table, order, d).value[i].toolName != Scanned(workDir, table, order, d).value[j].toolName
  {
    if order != [] {
      var init := order[..|order| - 1];
      var last := order[|order| - 1];
      ScannedStep(workDir, table, order, d);
      ScannedOnePerTool(workDir, table, init, d);
      var before := Scanned(workDir, table, init, d).value;
      var after := Scanned(workDir, table, order, d).value;
      assert forall i :: 0 <= i < |before| ==> after[i] == before[i];
      forall f | f in after ensures f.toolName in order {
        var i :| 0 <= i < |after| && after[i] == f;
        if i < |before| { assert before[i] in before; assert before[i].toolName in init; }
      }
      if Distinct(order) {
        assert Distinct(init);
        assert last !in init;
        forall i, j | 0 <= i < j < |after| ensures after[i].toolName != after[j].toolName {
          if j == |before| { assert before[i] in before; }
        }
      }
    }
  }

  /** The scan fails exactly when some tool's probe fails, and then with that
      tool's error. */
  lemma {:induction false} ScannedFailsIff(workDir: string, table: map<string, ToolPaths>, order: seq<string>, d: Disk)
    requires forall k :: k in order ==> k in table
    ensures Scanned(workDir, table, order, d).Err? <==>
      exists k :: k in order && FindToolFile(workDir, k, table[k], d).Err?
    ensures Scanned(workDir, table, order, d).Err? ==>
      exists k :: k in order && FindToolFile(workDir, k, table[k], d).Err?
        && Scanned(workDir, table, order, d).error == ScanFailed(k, FindToolFile(workDir, k, table[k], d).error)
  {
    if order != [] {
      var init := order[..|order| - 1];
      var last := order[|order| - 1];
      assert order == init + [last];
      ScannedFailsIff(workDir, table, init, d);
      if exists k :: k in init && FindToolFile(workDir, k, table[k], d).Err? {
        var k :| k in init && FindToolFile(workDir, k, table[k], d).Err?;
        assert k in order;
      }
    }
  }

  /** The scan over a whole table: at most one entry per known tool. */
  lemma ScanBound(workDir: string, table: map<string, ToolPaths>, order: seq<string>, d: Disk)
    requires Enumerates(order, table.Keys)
    requires Scanned(workDir, table, order, d).Ok?
    ensures |Scanned(workDir, table, order, d).value| <= |table|
    ensures forall f :: f in Scanned(workDir, table, order, d).value <==>
      exists k :: k in table && FindToolFile(workDir, k, table[k], d) == Ok(Some(f))
  {
    ScannedMembers(workDir, table, order, d);
    ScannedOnePerTool(workDir, table, order, d);
    EnumerationLength(order, table.Keys);
  }

  /** A file directly in the working directory is reported under its own name. */
  lemma ReportedPathInWorkDir(workDir: string, fileName: string)
    requires workDir != [] && workDir != "." && fileName != []
    ensures MakeRelativePath(workDir, ProbePath(workDir, ToolPaths("", fileName))) == fileName
  {
    RelOfJoin(workDir, fileName);
  }

  /** A file in a tool directory is reported as "<dir>/<file>". */
  lemma ReportedPathInToolDir(workDir: string, dirName: string, fileName: string)
    requires workDir != [] && workDir != "." && dirName != [] && dirName != "." && fileName != []
    ensures MakeRelativePath(workDir, ProbePath(workDir, ToolPaths(dirName, fileName))) == dirName + "/" + fileName
  {
    assert ProbePath(workDir, ToolPaths(dirName, fileName)) == Join(workDir, dirName + "/" + fileName);
    RelOfJoin(workDir, dirName + "/" + fileName);
  }
}
