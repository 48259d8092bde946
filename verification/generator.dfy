/** The render-and-fan-out pipeline of internal/generator/generator.go:
    collect the prompt fragments, render them into one document, and write
    that document to every output target. */
module Generator {
  import opened Outcomes
  import opened Text
  import opened Paths
  import opened FileSystem
  import opened Config
  import opened Iteration

  datatype PromptFile = PromptFile(path: string, filename: string, content: string)

  datatype OutputTarget = OutputTarget(path: string, toolName: string)

  /** One call of the filepath.WalkDir callback, in visiting order: an entry
      (its path, its base name, whether it is a directory) or the error the
      walk passed in for a path (a missing or unreadable input directory). */
  datatype WalkEntry = Visit(path: string, name: string, isDir: bool) | VisitError(path: string)

  /** filepath.Match(pattern, name); a malformed pattern reads as no match. */
  type Matcher = (string, string) -> bool

  // ---------------------------------------------------------------------
  // Collecting

  /** A pattern of `excludes` matches the base name of `path`. */
  predicate Excluded(excludes: seq<string>, matches: Matcher, path: string) {
    exists i :: 0 <= i < |excludes| && matches(excludes[i], Base(path))
  }

  /** shouldExclude: tries the exclude patterns in order and stops at the first match. */
  method ShouldExclude(excludes: seq<string>, matches: Matcher, path: string) returns (b: bool)
    ensures b <==> Excluded(excludes, matches, path)
  {
    var name := Base(path);
    for i := 0 to |excludes|
      invariant forall j :: 0 <= j < i ==> !matches(excludes[j], name)
    {
      if matches(excludes[i], name) {
        return true;
      }
    }
    return false;
  }

  /** An entry the walk callback keeps: a non-directory whose path ends in
      ".md" and whose base name no exclude pattern matches. */
  predicate Eligible(excludes: seq<string>, matches: Matcher, e: WalkEntry) {
    e.Visit? && !e.isDir && HasSuffix(e.path, ".md") && !Excluded(excludes, matches, e.path)
  }

  /** An entry that makes the walk fail: an error handed to the callback, or a
      kept entry whose content cannot be read. */
  predicate Fails(excludes: seq<string>, matches: Matcher, d: Disk, e: WalkEntry) {
    e.VisitError? || (Eligible(excludes, matches, e) && ReadFile(d, e.path).Err?)
  }

  /** The list the walk callback builds over `es`, in visiting order, or the
      error that stopped the walk. */
  function Walked(excludes: seq<string>, matches: Matcher, d: Disk, es: seq<WalkEntry>): Result<seq<PromptFile>>
  {
    if es == [] then Ok([])
    else
      match Walked(excludes, matches, d, es[..|es| - 1])
      case Err(e) => Err(e)
      case Ok(files) =>
        var e := es[|es| - 1];
        if e.VisitError? then Err(WalkFailed(e.path))
        else if !Eligible(excludes, matches, e) then Ok(files)
        else
          match ReadFile(d, e.path)
          case Err(err) => Err(err)
          case Ok(content) => Ok(files + [PromptFile(e.path, e.name, content)])
  }

  /** The walk fails exactly when some entry fails: there is never a partial list. */
  lemma {:induction false} WalkedFailsIff(excludes: seq<string>, matches: Matcher, d: Disk, es: seq<WalkEntry>)
    ensures Walked(excludes, matches, d, es).Err? <==> exists i :: 0 <= i < |es| && Fails(excludes, matches, d, es[i])
  {
    if es != [] {
      var init := es[..|es| - 1];
      WalkedFailsIff(excludes, matches, d, init);
      if exists i :: 0 <= i < |init| && Fails(excludes, matches, d, init[i]) {
        var i :| 0 <= i < |init| && Fails(excludes, matches, d, init[i]);
        assert es[i] == init[i];
      }
      if exists i :: 0 <= i < |es| && Fails(excludes, matches, d, es[i]) {
        var i :| 0 <= i < |es| && Fails(excludes, matches, d, es[i]);
        if i < |init| { assert init[i] == es[i]; }
      }
    }
  }

  /** The file an eligible, readable entry contributes. */
  predicate CollectedFrom(d: Disk, f: PromptFile, e: WalkEntry) {
    e.Visit? && f.path == e.path && f.filename == e.name && ReadFile(d, e.path) == Ok(f.content)
  }

  /** Every collected file comes from an eligible entry and holds its content
      as read; every eligible entry is collected. */
  lemma {:induction false} WalkedExactly(excludes: seq<string>, matches: Matcher, d: Disk, es: seq<WalkEntry>)
    requires Walked(excludes, matches, d, es).Ok?
    ensures forall f :: f in Walked(excludes, matches, d, es).value ==>
      exists i :: 0 <= i < |es| && Eligible(excludes, matches, es[i]) && CollectedFrom(d, f, es[i])
    ensures forall i :: 0 <= i < |es| && Eligible(excludes, matches, es[i]) ==>
      ReadFile(d, es[i].path).Ok? &&
      PromptFile(es[i].path, es[i].name, ReadFile(d, es[i].path).value) in Walked(excludes, matches, d, es).value
  {
    if es != [] {
      var init := es[..|es| - 1];
      WalkedExactly(excludes, matches, d, init);
      var files := Walked(excludes, matches, d, init).value;
      var all := Walked(excludes, matches, d, es).value;
      assert forall f :: f in files ==> f in all;
      forall f | f in all
        ensures exists i :: 0 <= i < |es| && Eligible(excludes, matches, es[i]) && CollectedFrom(d, f, es[i])
      {
        if f in files {
          var i :| 0 <= i < |init| && Eligible(excludes, matches, init[i]) && CollectedFrom(d, f, init[i]);
          assert es[i] == init[i];
        } else {
          assert Eligible(excludes, matches, es[|es| - 1]) && CollectedFrom(d, f, es[|es| - 1]);
        }
      }
      forall i | 0 <= i < |es| && Eligible(excludes, matches, es[i])
        ensures ReadFile(d, es[i].path).Ok? && PromptFile(es[i].path, es[i].name, ReadFile(d, es[i].path).value) in all
      {
        if i < |init| { assert es[i] == init[i]; }
      }
    }
  }

  /** Ordered non-decreasing by Filename, as sort.Slice leaves it (no stability). */
  predicate SortedByFilename(fs: seq<PromptFile>) {
    forall i, j :: 0 <= i < j < |fs| ==> LessEq(fs[i].filename, fs[j].filename)
  }

  /** Inserts `f` into a sorted list behind every file that does not sort after it. */
  function Insert(fs: seq<PromptFile>, f: PromptFile): (r: seq<PromptFile>)
    requires SortedByFilename(fs)
    ensures multiset(r) == multiset(fs) + multiset{f}
    ensures SortedByFilename(r)
  {
    if fs == [] then [f]
    else if LessEq(f.filename, fs[0].filename) then
      FileInFront(fs, f);
      [f] + fs
    else
      FilenameSortedTail(fs);
      var rest := Insert(fs[1..], f);
      FileBehindHead(fs, f, rest);
      [fs[0]] + rest
  }

  lemma FilenameSortedTail(fs: seq<PromptFile>)
    requires SortedByFilename(fs) && fs != []
    ensures SortedByFilename(fs[1..])
  {
    forall p, q | 0 <= p < q < |fs| - 1 ensures LessEq(fs[1..][p].filename, fs[1..][q].filename) {
      assert fs[1..][p] == fs[p + 1] && fs[1..][q] == fs[q + 1];
    }
  }

  /** A file no greater than the head of a sorted list can go in front. */
  lemma FileInFront(fs: seq<PromptFile>, f: PromptFile)
    requires SortedByFilename(fs) && fs != [] && LessEq(f.filename, fs[0].filename)
    ensures SortedByFilename([f] + fs)
  {
    var r := [f] + fs;
    forall j | 1 <= j < |r| ensures LessEq(r[0].filename, r[j].filename) {
      if j == 1 { LessIrreflexive(fs[0].filename); }
      LessEqTransitive(f.filename, fs[0].filename, r[j].filename);
    }
  }

  /** The head of a sorted list stays in front of the tail with `f`
      inserted, when `f` sorts after it. */
  lemma FileBehindHead(fs: seq<PromptFile>, f: PromptFile, rest: seq<PromptFile>)
    requires SortedByFilename(fs) && fs != [] && !LessEq(f.filename, fs[0].filename)
    requires SortedByFilename(rest) && multiset(rest) == multiset(fs[1..]) + multiset{f}
    ensures SortedByFilename([fs[0]] + rest)
    ensures multiset([fs[0]] + rest) == multiset(fs) + multiset{f}
  {
    assert fs == [fs[0]] + fs[1..];
    var r := [fs[0]] + rest;
    forall j | 1 <= j < |r| ensures LessEq(r[0].filename, r[j].filename) {
      assert r[j] == rest[j - 1];
      assert r[j] in multiset(rest);
      if r[j] == f { LessEqTotal(f.filename, fs[0].filename); }
      else {
        assert r[j] in multiset(fs[1..]);
        var k :| 0 <= k < |fs[1..]| && fs[1..][k] == r[j];
        assert fs[k + 1] == r[j];
      }
    }
  }

  /** sort.Slice by Filename: the result is ordered and a permutation of the input. */
  method SortByFilename(files: seq<PromptFile>) returns (sorted: seq<PromptFile>)
    ensures SortedByFilename(sorted)
    ensures multiset(sorted) == multiset(files)
  {
    sorted := [];
    for i := 0 to |files|
      invariant SortedByFilename(sorted)
      invariant multiset(sorted) == multiset(files[..i])
    {
      sorted := Insert(sorted, files[i]);
      assert files[..i + 1] == files[..i] + [files[i]];
    }
    assert files[..|files|] == files;
  }

  /** CollectPromptFiles: walks the entries, keeps the eligible ones with their
      content, aborts on the first error with no list, and sorts by Filename. */
  method CollectPromptFiles(cfg: Config, entries: seq<WalkEntry>, d: Disk, matches: Matcher)
    returns (r: Result<seq<PromptFile>>)
    ensures Walked(cfg.excludeFiles, matches, d, entries).Err? ==> r == Walked(cfg.excludeFiles, matches, d, entries)
    ensures Walked(cfg.excludeFiles, matches, d, entries).Ok? ==>
      && r.Ok?
      && SortedByFilename(r.value)
      && multiset(r.value) == multiset(Walked(cfg.excludeFiles, matches, d, entries).value)
  {
    var files: seq<PromptFile> := [];
    for i := 0 to |entries|
      invariant Walked(cfg.excludeFiles, matches, d, entries[..i]) == Ok(files)
    {
      var e := entries[i];
      assert entries[..i + 1][..i] == entries[..i];
      if e.VisitError? {
        assert Walked(cfg.excludeFiles, matches, d, entries[..i + 1]).Err?;
        PrefixFailure(cfg.excludeFiles, matches, d, entries, i + 1);
        return Err(WalkFailed(e.path));
      }
      if e.isDir || !HasSuffix(e.path, ".md") {
        continue;
      }
      var excluded := ShouldExclude(cfg.excludeFiles, matches, e.path);
      if excluded {
        continue;
      }
      var content := ReadFile(d, e.path);
      if content.Err? {
        PrefixFailure(cfg.excludeFiles, matches, d, entries, i + 1);
        return Err(content.error);
      }
      files := files + [PromptFile(e.path, e.name, content.value)];
    }
    assert entries[..|entries|] == entries;
    var sorted := SortByFilename(files);
    return Ok(sorted);
  }

  /** Once the walk has failed on a prefix, the whole walk fails with that error. */
  lemma {:induction false} PrefixFailure(excludes: seq<string>, matches: Matcher, d: Disk, es: seq<WalkEntry>, n: nat)
    requires n <= |es| && Walked(excludes, matches, d, es[..n]).Err?
    ensures Walked(excludes, matches, d, es) == Walked(excludes, matches, d, es[..n])
    decreases |es| - n
  {
    if n < |es| {
      assert es[..n + 1][..n] == es[..n];
      PrefixFailure(excludes, matches, d, es, n + 1);
    } else {
      assert es[..n] == es;
    }
  }

  // ---------------------------------------------------------------------
  // Rendering

  /** The name shown in a file's heading: the file name without one ".md". */
  function Stem(filename: string): (r: string)
    ensures HasSuffix(filename, ".md") ==> r + ".md" == filename
    ensures !HasSuffix(filename, ".md") ==> r == filename
  {
    TrimSuffix(filename, ".md")
  }

  /** The heading line and the blank line after it. */
  function Heading(f: PromptFile): string {
    "# " + Stem(f.filename) + "\n\n"
  }

  /** One file's part of the document: heading, raw content, a newline if the
      content lacks a final one, and a blank separator line. */
  function Section(f: PromptFile): string {
    Heading(f) + f.content + (if HasSuffix(f.content, "\n") then "" else "\n") + "\n"
  }

  /** The sections of `fs` in order. */
  function Sections(fs: seq<PromptFile>): string {
    if fs == [] then "" else Sections(fs[..|fs| - 1]) + Section(fs[|fs| - 1])
  }

  /** The whole document GeneratePrompt produces. */
  function Render(header: string, footer: string, fs: seq<PromptFile>): string {
    header + Sections(fs) + footer
  }

  /** GeneratePrompt: accumulates header, the sections and the footer. */
  method GeneratePrompt(cfg: Config, files: seq<PromptFile>) returns (s: string)
    ensures s == Render(cfg.header, cfg.footer, files)
  {
    s := cfg.header;
    for i := 0 to |files|
      invariant s == cfg.header + Sections(files[..i])
    {
      ghost var before := Sections(files[..i]);
      s := WriteSection(s, files[i]);
      SectionsSnoc(files, i);
      Regroup3(cfg.header, before, Section(files[i]));
    }
    assert files[..|files|] == files;
    s := s + cfg.footer;
  }

  /** The body of GeneratePrompt's loop: heading, content, the newline the
      content may lack, and the separator, appended to the builder. */
  method WriteSection(b: string, f: PromptFile) returns (s: string)
    ensures s == b + Section(f)
  {
    s := b + "# " + TrimSuffix(f.filename, ".md") + "\n\n";
    s := s + f.content;
    if !HasSuffix(f.content, "\n") {
      s := s + "\n";
    }
    s := s + "\n";
  }

  lemma SectionsSnoc(files: seq<PromptFile>, i: nat)
    requires i < |files|
    ensures Sections(files[..i + 1]) == Sections(files[..i]) + Section(files[i])
  {
    assert files[..i + 1][..i] == files[..i];
  }

  /** With no files the document is the header followed by the footer. */
  lemma RenderEmpty(header: string, footer: string)
    ensures Render(header, footer, []) == header + footer
  {
  }

  /** A section carries the content unaltered right after its heading, and
      always ends with a blank line, whether or not the content ends in a newline. */
  lemma SectionShape(f: PromptFile)
    ensures HasPrefix(Section(f), Heading(f) + f.content)
    ensures HasSuffix(Section(f), "\n\n")
    ensures |Section(f)| == |Heading(f)| + |f.content| + (if HasSuffix(f.content, "\n") then 1 else 2)
  {
    var s := Section(f);
    var p := Heading(f) + f.content;
    assert s[..|p|] == p;
    if HasSuffix(f.content, "\n") {
      assert s[|s| - 2] == f.content[|f.content| - 1];
    }
    assert s[|s| - 2..] == [s[|s| - 2], s[|s| - 1]];
  }

  /** Rendering distributes over concatenation of the file list. */
  lemma {:induction false} SectionsAppend(a: seq<PromptFile>, b: seq<PromptFile>)
    ensures Sections(a + b) == Sections(a) + Sections(b)
    decreases |b|
  {
    if b == [] {
      assert a + b == a;
    } else {
      var b' := b[..|b| - 1];
      var last := b[|b| - 1];
      assert (a + b)[..|a + b| - 1] == a + b';
      assert (a + b)[|a + b| - 1] == last;
      calc {
        Sections(a + b);
        Sections(a + b') + Section(last);
        { SectionsAppend(a, b'); }
        Sections(a) + Sections(b') + Section(last);
        { Regroup3(Sections(a), Sections(b'), Section(last)); }
        Sections(a) + (Sections(b') + Section(last));
        Sections(a) + Sections(b);
      }
    }
  }

  /** The document is the header, then each file's section in list order, then the footer. */
  lemma {:induction false} RenderCons(header: string, footer: string, f: PromptFile, fs: seq<PromptFile>)
    ensures Render(header, footer, [f] + fs) == header + Section(f) + Sections(fs) + footer
  {
    assert [f][..0] == [];
    assert Sections([f]) == Section(f);
    calc {
      Render(header, footer, [f] + fs);
      header + Sections([f] + fs) + footer;
      { SectionsAppend([f], fs); }
      header + (Section(f) + Sections(fs)) + footer;
      { Regroup3(header, Section(f), Sections(fs)); }
      header + Section(f) + Sections(fs) + footer;
    }
  }

  /** Stem drops exactly one ".md" from a name that has it. */
  lemma StemOfMarkdown(stem: string)
    ensures Stem(stem + ".md") == stem
  {
    assert (stem + ".md")[|stem|..] == ".md";
  }

  /** The section of a Markdown file: its stem as a heading, then the
      content, given a final newline when it lacks one, then a blank line. */
  lemma SectionOfMarkdown(path: string, stem: string, c: string)
    ensures Section(PromptFile(path, stem + ".md", c))
      == "# " + stem + "\n\n" + c + (if HasSuffix(c, "\n") then "" else "\n") + "\n"
  {
    StemOfMarkdown(stem);
  }

  lemma SectionWithoutNewline()
    ensures Section(PromptFile("in/01_a.md", "01_a.md", "X")) == "# 01_a\n\nX\n\n"
  {
    var stem := "01_a";
    assert stem + ".md" == "01_a.md";
    SectionOfMarkdown("in/01_a.md", stem, "X");
    assert !HasSuffix("X", "\n");
  }

  lemma SectionWithNewline()
    ensures Section(PromptFile("in/02_b.md", "02_b.md", "Y\n")) == "# 02_b\n\nY\n\n"
  {
    var stem := "02_b";
    assert stem + ".md" == "02_b.md";
    SectionOfMarkdown("in/02_b.md", stem, "Y\n");
    assert HasSuffix("Y\n", "\n") by { assert "Y\n"[1..] == "\n"; }
  }

  /** Two files, one without and one with a final newline, between a header
      and a footer. */
  lemma RenderExample()
    ensures Render("H\n", "F\n", [PromptFile("in/01_a.md", "01_a.md", "X"), PromptFile("in/02_b.md", "02_b.md", "Y\n")])
      == "H\n# 01_a\n\nX\n\n# 02_b\n\nY\n\nF\n"
  {
    var f1 := PromptFile("in/01_a.md", "01_a.md", "X");
    var f2 := PromptFile("in/02_b.md", "02_b.md", "Y\n");
    SectionWithoutNewline();
    SectionWithNewline();
    assert [f1, f2][..1] == [f1];
    assert [f1][..0] == [];
    assert Sections([f1]) == Section(f1);
    assert Sections([f1, f2]) == Section(f1) + Section(f2);
  }

  // ---------------------------------------------------------------------
  // Output targets

  /** A built-in tool's directory: its Path, or "." when that is empty. */
  function OrCurrentDir(path: string): string {
    if path == "" then "." else path
  }

  /** A custom tool is written only when Generate, Path and FileName are all set. */
  predicate CustomEnabled(t: AIToolSettings) {
    t.generate && t.path != "" && t.fileName != ""
  }

  function BuiltinTargets(s: Settings): seq<OutputTarget> {
    (if s.claude.generate then [OutputTarget(Join(OrCurrentDir(s.claude.path), s.claude.fileName), "Claude")] else [])
    + (if s.cline.generate then [OutputTarget(Join(OrCurrentDir(s.cline.path), s.cline.fileName), "Cline")] else [])
  }

  /** The target a custom tool contributes. */
  function CustomTarget(custom: map<string, AIToolSettings>, k: string): OutputTarget
    requires k in custom
  {
    OutputTarget(Join(custom[k].path, custom[k].fileName), k)
  }

  function CustomTargets(custom: map<string, AIToolSettings>, order: seq<string>): seq<OutputTarget>
    requires forall k :: k in order ==> k in custom
  {
    if order == [] then []
    else
      var init := CustomTargets(custom, order[..|order| - 1]);
      var k := order[|order| - 1];
      if CustomEnabled(custom[k]) then init + [CustomTarget(custom, k)] else init
  }

  /** The `outputs` list WriteOutputFiles builds in settings mode. */
  function Outputs(s: Settings, order: seq<string>): seq<OutputTarget>
    requires forall k :: k in order ==> k in s.custom
  {
    BuiltinTargets(s) + CustomTargets(s.custom, order)
  }

  function PathsOf(ts: seq<OutputTarget>): (ps: seq<string>)
    ensures |ps| == |ts|
    ensures forall i :: 0 <= i < |ts| ==> ps[i] == ts[i].path
  {
    seq(|ts|, i requires 0 <= i < |ts| => ts[i].path)
  }

  /** GetGeneratedTargets: the legacy OutputFiles without Settings; otherwise
      the paths of the targets WriteOutputFiles writes when the custom map is
      visited in the order `order`. The Go code ranges the map afresh here
      and in the writer, so the two may list the custom tools in different
      orders; which targets there are does not depend on the order
      (TargetsExactly). */
  method GetGeneratedTargets(cfg: Config, order: seq<string>) returns (targets: seq<string>)
    requires cfg.settings.Some? ==> Enumerates(order, cfg.settings.value.custom.Keys)
    ensures cfg.settings.None? ==> targets == cfg.outputFiles
    ensures cfg.settings.Some? ==> targets == PathsOf(Outputs(cfg.settings.value, order))
  {
    if cfg.settings.None? {
      return cfg.outputFiles;
    }
    var s := cfg.settings.value;
    targets := [];
    if s.claude.generate {
      targets := targets + [Join(OrCurrentDir(s.claude.path), s.claude.fileName)];
    }
    if s.cline.generate {
      targets := targets + [Join(OrCurrentDir(s.cline.path), s.cline.fileName)];
    }
    assert targets == PathsOf(BuiltinTargets(s) + CustomTargets(s.custom, order[..0]));
    for i := 0 to |order|
      invariant targets == PathsOf(BuiltinTargets(s) + CustomTargets(s.custom, order[..i]))
    {
      var t := s.custom[order[i]];
      assert order[..i + 1][..i] == order[..i];
      if t.generate && t.path != "" && t.fileName != "" {
        targets := targets + [Join(t.path, t.fileName)];
      }
    }
    assert order[..|order|] == order;
  }

  /** A custom target is produced exactly for the enabled keys of the order. */
  lemma {:induction false} CustomTargetsMembership(custom: map<string, AIToolSettings>, order: seq<string>)
    requires forall k :: k in order ==> k in custom
    ensures forall t :: t in CustomTargets(custom, order) <==>
      exists k :: k in order && CustomEnabled(custom[k]) && t == CustomTarget(custom, k)
  {
    if order != [] {
      var init := order[..|order| - 1];
      CustomTargetsMembership(custom, init);
      var last := order[|order| - 1];
      assert order == init + [last];
      forall t | (exists k :: k in order && CustomEnabled(custom[k]) && t == CustomTarget(custom, k))
        ensures t in CustomTargets(custom, order)
      {
        var k :| k in order && CustomEnabled(custom[k]) && t == CustomTarget(custom, k);
        if k != last { assert k in init; }
      }
    }
  }

  /** The keys of the order whose tool is written. */
  function EnabledKeys(custom: map<string, AIToolSettings>, order: seq<string>): set<string> {
    set k | k in order && k in custom && CustomEnabled(custom[k])
  }

  /** One target per enabled custom tool. */
  lemma {:induction false} CustomTargetsCount(custom: map<string, AIToolSettings>, order: seq<string>)
    requires forall k :: k in order ==> k in custom
    requires forall i, j :: 0 <= i < j < |order| ==> order[i] != order[j]
    ensures |CustomTargets(custom, order)| == |EnabledKeys(custom, order)|
  {
    if order != [] {
      var init := order[..|order| - 1];
      var last := order[|order| - 1];
      assert order == init + [last];
      CustomTargetsCount(custom, init);
      assert last !in init;
      if CustomEnabled(custom[last]) {
        assert EnabledKeys(custom, order) == EnabledKeys(custom, init) + {last};
      } else {
        assert EnabledKeys(custom, order) == EnabledKeys(custom, init);
      }
    }
  }

  /** The targets, characterised without reference to map order: Claude and
      Cline when they generate (an empty Path meaning "."), and every custom
      tool with Generate, Path and FileName set; one target per tool. */
  lemma TargetsExactly(s: Settings, order: seq<string>)
    requires Enumerates(order, s.custom.Keys)
    ensures forall t :: t in Outputs(s, order) <==>
      || (s.claude.generate && t == OutputTarget(Join(OrCurrentDir(s.claude.path), s.claude.fileName), "Claude"))
      || (s.cline.generate && t == OutputTarget(Join(OrCurrentDir(s.cline.path), s.cline.fileName), "Cline"))
      || (exists k :: k in s.custom && CustomEnabled(s.custom[k]) && t == CustomTarget(s.custom, k))
    ensures |Outputs(s, order)| ==
      (if s.claude.generate then 1 else 0) + (if s.cline.generate then 1 else 0)
      + |set k | k in s.custom && CustomEnabled(s.custom[k])|
  {
    CustomTargetsMembership(s.custom, order);
    CustomTargetsCount(s.custom, order);
    assert EnabledKeys(s.custom, order) == set k | k in s.custom && CustomEnabled(s.custom[k]);
  }

  /** With the default settings, the targets are the legacy default output files. */
  lemma DefaultTargetsMatchLegacy()
    ensures PathsOf(Outputs(DefaultSettings(), [])) == DefaultConfig().outputFiles
  {
    JoinCurrentDir(ClaudeFileName);
    JoinCurrentDir(ClineFileName);
  }

  // ---------------------------------------------------------------------
  // Writing

  /** Legacy mode: write each listed file in turn; the first failure stops the loop. */
  function WriteLegacy(files: seq<string>, content: string, d: Disk): WriteOutcome {
    if files == [] then WriteOutcome(None, d)
    else
      match WriteFile(d, files[0], content)
      case Err(_) => WriteOutcome(Some(WriteFailed(files[0])), d)
      case Ok(d') => WriteLegacy(files[1..], content, d')
  }

  /** Settings mode, one target: create its directory, then write the file. */
  function WriteTarget(t: OutputTarget, content: string, d: Disk): WriteOutcome {
    match MkdirAll(d, Dir(t.path))
    case Err(_) => WriteOutcome(Some(MkdirFailed(Dir(t.path))), d)
    case Ok(d1) =>
      match WriteFile(d1, t.path, content)
      case Err(_) => WriteOutcome(Some(WriteToolFailed(t.path, t.toolName)), d1)
      case Ok(d2) => WriteOutcome(None, d2)
  }

  /** Settings mode: every target in turn; the first failure stops the loop. */
  function WriteTargets(ts: seq<OutputTarget>, content: string, d: Disk): WriteOutcome {
    if ts == [] then WriteOutcome(None, d)
    else
      var r := WriteTarget(ts[0], content, d);
      if r.err.Some? then r else WriteTargets(ts[1..], content, r.disk)
  }

  /** What WriteOutputFiles does to the disk. */
  function WriteOutputs(cfg: Config, content: string, d: Disk, order: seq<string>): WriteOutcome
    requires cfg.settings.Some? ==> Enumerates(order, cfg.settings.value.custom.Keys)
  {
    if cfg.settings.None? then WriteLegacy(cfg.outputFiles, content, d)
    else WriteTargets(Outputs(cfg.settings.value, order), content, d)
  }

  /** WriteOutputFiles: builds the targets, then creates each directory and
      writes each file, stopping at the first failure. */
  method WriteOutputFiles(cfg: Config, content: string, d: Disk, order: seq<string>)
    returns (err: Option<Error>, disk: Disk)
    requires cfg.settings.Some? ==> Enumerates(order, cfg.settings.value.custom.Keys)
    ensures WriteOutcome(err, disk) == WriteOutputs(cfg, content, d, order)
  {
    if cfg.settings.None? {
      err, disk := WriteLegacyFiles(cfg.outputFiles, content, d);
      return;
    }
    var s := cfg.settings.value;
    var outputs: seq<OutputTarget> := [];
    if s.claude.generate {
      outputs := outputs + [OutputTarget(Join(OrCurrentDir(s.claude.path), s.claude.fileName), "Claude")];
    }
    if s.cline.generate {
      outputs := outputs + [OutputTarget(Join(OrCurrentDir(s.cline.path), s.cline.fileName), "Cline")];
    }
    assert outputs == BuiltinTargets(s) + CustomTargets(s.custom, order[..0]);
    for i := 0 to |order|
      invariant outputs == BuiltinTargets(s) + CustomTargets(s.custom, order[..i])
    {
      var toolName := order[i];
      var settings := s.custom[toolName];
      assert order[..i + 1][..i] == order[..i];
      if settings.generate && settings.path != "" && settings.fileName != "" {
        outputs := outputs + [OutputTarget(Join(settings.path, settings.fileName), toolName)];
      }
    }
    assert order[..|order|] == order;
    err, disk := WriteTargetFiles(outputs, content, d);
  }

  /** The legacy branch of WriteOutputFiles: each listed file in turn. */
  method WriteLegacyFiles(files: seq<string>, content: string, d: Disk) returns (err: Option<Error>, disk: Disk)
    ensures WriteOutcome(err, disk) == WriteLegacy(files, content, d)
  {
    disk := d;
    for i := 0 to |files|
      invariant WriteLegacy(files[i..], content, disk) == WriteLegacy(files, content, d)
    {
      var outputFile := files[i];
      var w := WriteFile(disk, outputFile, content);
      if w.Err? {
        return Some(WriteFailed(outputFile)), disk;
      }
      disk := w.value;
      assert files[i..][1..] == files[i + 1..];
    }
    return None, disk;
  }

  /** The settings branch of WriteOutputFiles once the targets are built:
      each target's directory, then its file. */
  method WriteTargetFiles(outputs: seq<OutputTarget>, content: string, d: Disk) returns (err: Option<Error>, disk: Disk)
    ensures WriteOutcome(err, disk) == WriteTargets(outputs, content, d)
  {
    disk := d;
    for i := 0 to |outputs|
      invariant WriteTargets(outputs[i..], content, disk) == WriteTargets(outputs, content, d)
    {
      var target := outputs[i];
      var dir := Dir(target.path);
      var m := MkdirAll(disk, dir);
      if m.Err? {
        return Some(MkdirFailed(dir)), disk;
      }
      var w := WriteFile(m.value, target.path, content);
      if w.Err? {
        return Some(WriteToolFailed(target.path, target.toolName)), m.value;
      }
      disk := w.value;
      assert outputs[i..][1..] == outputs[i + 1..];
    }
    return None, disk;
  }

  /** The directories and files a write of `ts` may touch. */
  function Touched(ts: seq<OutputTarget>): set<string> {
    (set t | t in ts :: t.path) + (set t | t in ts :: Dir(t.path))
  }

  /** `d2` differs from `d1` at most on the paths of `s`. */
  ghost predicate SameOutside(d1: Disk, d2: Disk, s: set<string>) {
    && d1.broken == d2.broken && d1.locked == d2.locked
    && forall p :: p !in s ==> (p in d1.nodes <==> p in d2.nodes) && (p in d1.nodes ==> d1.nodes[p] == d2.nodes[p])
  }

  /** A successful step keeps every file that already holds `content`. */
  lemma StepKeepsContent(t: OutputTarget, content: string, d: Disk, p: string)
    requires WriteTarget(t, content, d).err.None?
    requires p in d.nodes && d.nodes[p] == File(content)
    ensures p in WriteTarget(t, content, d).disk.nodes && WriteTarget(t, content, d).disk.nodes[p] == File(content)
  {
  }

  lemma {:induction false} WriteTargetsKeepContent(ts: seq<OutputTarget>, content: string, d: Disk, p: string)
    requires WriteTargets(ts, content, d).err.None?
    requires p in d.nodes && d.nodes[p] == File(content)
    ensures p in WriteTargets(ts, content, d).disk.nodes && WriteTargets(ts, content, d).disk.nodes[p] == File(content)
  {
    if ts != [] {
      StepKeepsContent(ts[0], content, d, p);
      WriteTargetsKeepContent(ts[1..], content, WriteTarget(ts[0], content, d).disk, p);
    }
  }

  lemma SameOutsideTrans(d1: Disk, d2: Disk, d3: Disk, a: set<string>, b: set<string>, c: set<string>)
    requires SameOutside(d1, d2, a) && SameOutside(d2, d3, b)
    requires a + b <= c
    ensures SameOutside(d1, d3, c)
  {
  }

  /** One step touches only its file and that file's directory. */
  lemma WriteTargetFrame(t: OutputTarget, content: string, d: Disk)
    ensures SameOutside(d, WriteTarget(t, content, d).disk, {t.path, Dir(t.path)})
  {
  }

  /** Whatever the outcome, nothing outside the targets and their directories changes. */
  lemma {:induction false} WriteTargetsFrame(ts: seq<OutputTarget>, content: string, d: Disk)
    ensures SameOutside(d, WriteTargets(ts, content, d).disk, Touched(ts))
  {
    if ts != [] {
      var r := WriteTarget(ts[0], content, d);
      WriteTargetFrame(ts[0], content, d);
      if r.err.None? {
        WriteTargetsFrame(ts[1..], content, r.disk);
        assert Touched(ts[1..]) <= Touched(ts) by {
          assert forall t :: t in ts[1..] ==> t in ts;
        }
        SameOutsideTrans(d, r.disk, WriteTargets(ts, content, d).disk, {ts[0].path, Dir(ts[0].path)}, Touched(ts[1..]), Touched(ts));
      }
    }
  }

  /** On success every target holds exactly `content`. */
  lemma {:induction false} WriteTargetsSuccess(ts: seq<OutputTarget>, content: string, d: Disk)
    requires WriteTargets(ts, content, d).err.None?
    ensures forall t :: t in ts ==>
      t.path in WriteTargets(ts, content, d).disk.nodes && WriteTargets(ts, content, d).disk.nodes[t.path] == File(content)
  {
    if ts != [] {
      var r := WriteTarget(ts[0], content, d);
      WriteTargetsSuccess(ts[1..], content, r.disk);
      WriteTargetsKeepContent(ts[1..], content, r.disk, ts[0].path);
      assert forall t :: t in ts ==> t == ts[0] || t in ts[1..];
    }
  }

  /** On failure, the targets before the failing one were written, the error
      is that target's, and no later target was attempted. */
  lemma {:induction false} WriteTargetsFailure(ts: seq<OutputTarget>, content: string, d: Disk)
    requires WriteTargets(ts, content, d).err.Some?
    ensures exists k :: (0 <= k < |ts|
      && WriteTargets(ts[..k], content, d).err.None?
      && WriteTarget(ts[k], content, WriteTargets(ts[..k], content, d).disk) == WriteTargets(ts, content, d))
  {
    var r := WriteTarget(ts[0], content, d);
    if r.err.None? {
      WriteTargetsFailure(ts[1..], content, r.disk);
      var k :| 0 <= k < |ts[1..]|
        && WriteTargets(ts[1..][..k], content, r.disk).err.None?
        && WriteTarget(ts[1..][k], content, WriteTargets(ts[1..][..k], content, r.disk).disk) == WriteTargets(ts[1..], content, r.disk);
      WriteTargetsPrefixCons(ts, k, content, d);
      assert ts[1..][k] == ts[k + 1];
      assert 0 <= k + 1 < |ts|
        && WriteTargets(ts[..k + 1], content, d).err.None?
        && WriteTarget(ts[k + 1], content, WriteTargets(ts[..k + 1], content, d).disk) == WriteTargets(ts, content, d);
    } else {
      assert ts[..0] == [];
      assert 0 <= 0 < |ts|
        && WriteTargets(ts[..0], content, d).err.None?
        && WriteTarget(ts[0], content, WriteTargets(ts[..0], content, d).disk) == WriteTargets(ts, content, d);
    }
  }

  /** Writing the first k + 1 targets is writing the first one, then k more. */
  lemma WriteTargetsPrefixCons(ts: seq<OutputTarget>, k: nat, content: string, d: Disk)
    requires k < |ts| - 1
    requires WriteTarget(ts[0], content, d).err.None?
    ensures WriteTargets(ts[..k + 1], content, d)
         == WriteTargets(ts[1..][..k], content, WriteTarget(ts[0], content, d).disk)
  {
    assert ts[..k + 1][0] == ts[0];
    assert ts[..k + 1][1..] == ts[1..][..k];
  }

  /** Legacy mode, on success: every listed file holds `content` and nothing
      else changes. */
  lemma {:induction false} WriteLegacySuccess(files: seq<string>, content: string, d: Disk)
    requires WriteLegacy(files, content, d).err.None?
    ensures forall f :: f in files ==>
      f in WriteLegacy(files, content, d).disk.nodes && WriteLegacy(files, content, d).disk.nodes[f] == File(content)
    ensures SameOutside(d, WriteLegacy(files, content, d).disk, set f | f in files)
  {
    if files != [] {
      var d' := WriteFile(d, files[0], content).value;
      WriteLegacySuccess(files[1..], content, d');
      assert forall f :: f in files ==> f == files[0] || f in files[1..];
    }
  }

  /** Legacy mode stopped at file `k`: the files before it were written, and
      the write of file `k` failed with an error naming it. */
  ghost predicate LegacyFailedAt(files: seq<string>, content: string, d: Disk, k: int) {
    && 0 <= k < |files|
    && WriteLegacy(files[..k], content, d).err.None?
    && WriteFile(WriteLegacy(files[..k], content, d).disk, files[k], content).Err?
    && WriteLegacy(files, content, d)
       == WriteOutcome(Some(WriteFailed(files[k])), WriteLegacy(files[..k], content, d).disk)
  }

  /** A failing legacy write failed at some file. */
  lemma {:induction false} WriteLegacyFailsAt(files: seq<string>, content: string, d: Disk)
    requires WriteLegacy(files, content, d).err.Some?
    ensures exists k :: LegacyFailedAt(files, content, d, k)
  {
    assert files != [];
    assert files[..0] == [];
    match WriteFile(d, files[0], content)
    case Err(_) =>
      assert LegacyFailedAt(files, content, d, 0);
    case Ok(d') =>
      WriteLegacyFailsAt(files[1..], content, d');
      var k :| LegacyFailedAt(files[1..], content, d', k);
      assert files[..k + 1][0] == files[0];
      assert files[..k + 1][1..] == files[1..][..k];
      assert files[1..][k] == files[k + 1];
      assert LegacyFailedAt(files, content, d, k + 1);
  }

  /** Legacy mode, on failure: the listed files before the failing one hold
      `content`, the error names the failing file, and nothing else changed. */
  lemma WriteLegacyFailure(files: seq<string>, content: string, d: Disk)
    requires WriteLegacy(files, content, d).err.Some?
    ensures exists k ::
      && LegacyFailedAt(files, content, d, k)
      && (forall f :: f in files[..k] ==>
            f in WriteLegacy(files, content, d).disk.nodes && WriteLegacy(files, content, d).disk.nodes[f] == File(content))
      && SameOutside(d, WriteLegacy(files, content, d).disk, set f | f in files[..k])
  {
    WriteLegacyFailsAt(files, content, d);
    var k :| LegacyFailedAt(files, content, d, k);
    WriteLegacySuccess(files[..k], content, d);
  }

  // ---------------------------------------------------------------------
  // Run

  /** Run: collect; fail without writing when that fails or finds nothing;
      otherwise render the sorted files and write the document to every target. */
  method Run(cfg: Config, entries: seq<WalkEntry>, d: Disk, matches: Matcher, order: seq<string>)
    returns (err: Option<Error>, disk: Disk, ghost files: seq<PromptFile>)
    requires cfg.settings.Some? ==> Enumerates(order, cfg.settings.value.custom.Keys)
    ensures Walked(cfg.excludeFiles, matches, d, entries).Err? ==>
      err == Some(CollectFailed(Walked(cfg.excludeFiles, matches, d, entries).error)) && disk == d
    ensures Walked(cfg.excludeFiles, matches, d, entries) == Ok([]) ==>
      err == Some(NoPromptFiles(cfg.inputDir)) && disk == d
    ensures Walked(cfg.excludeFiles, matches, d, entries).Ok? && Walked(cfg.excludeFiles, matches, d, entries) != Ok([]) ==>
      && SortedByFilename(files)
      && multiset(files) == multiset(Walked(cfg.excludeFiles, matches, d, entries).value)
      && WriteOutcome(err, disk) == WriteOutputs(cfg, Render(cfg.header, cfg.footer, files), d, order)
  {
    var collected := CollectPromptFiles(cfg, entries, d, matches);
    if collected.Err? {
      return Some(CollectFailed(collected.error)), d, [];
    }
    var sorted := collected.value;
    files := sorted;
    if |sorted| == 0 {
      assert multiset(Walked(cfg.excludeFiles, matches, d, entries).value) == multiset{};
      return Some(NoPromptFiles(cfg.inputDir)), d, files;
    }
    var content := GeneratePrompt(cfg, sorted);
    err, disk := WriteOutputFiles(cfg, content, d, order);
  }
}
