/** The `init` scaffolding of internal/init/init.go: the state the
    interactive setup works on, and the files it writes into the new
    `.system_prompt` directory. */
module Init {
  import opened Outcomes
  import opened Text
  import opened Paths
  import opened FileSystem
  import opened Iteration
  import opened InitScanner

  const SystemPromptDirName: string := ".system_prompt"
  const DefaultFileName: string := "001_default.md"
  const SettingsFileName: string := "settings.toml"

  // ---------------------------------------------------------------------
  // The imported-content file

  /** The block one imported file contributes to 001_default.md. */
  function ImportBlock(f: ExistingFile): string {
    "# Imported from " + f.path + "\n\n" + f.content
  }

  /** The blocks of the selected files, in order, separated by a blank line;
      empty when nothing is selected. */
  function ImportedContent(fs: seq<ExistingFile>): string {
    if fs == [] then ""
    else if |fs| == 1 then ImportBlock(fs[0])
    else ImportedContent(fs[..|fs| - 1]) + "\n\n" + ImportBlock(fs[|fs| - 1])
  }

  /** Importing two lists is importing each, joined by a blank line. */
  lemma {:induction false} ImportedContentConcat(a: seq<ExistingFile>, b: seq<ExistingFile>)
    requires a != [] && b != []
    ensures ImportedContent(a + b) == ImportedContent(a) + "\n\n" + ImportedContent(b)
    decreases |b|
  {
    var last := b[|b| - 1];
    assert (a + b)[..|a + b| - 1] == a + b[..|b| - 1];
    assert (a + b)[|a + b| - 1] == last;
    if |b| > 1 {
      ImportedContentConcat(a, b[..|b| - 1]);
    } else {
      assert b == [last];
    }
  }

  /** The content starts with the first file's block, and every further file
      follows after a blank line. */
  lemma ImportedContentCons(f: ExistingFile, fs: seq<ExistingFile>)
    ensures ImportedContent([f] + fs) == ImportBlock(f) + (if fs == [] then "" else "\n\n" + ImportedContent(fs))
  {
    if fs != [] {
      ImportedContentConcat([f], fs);
    }
  }

  // ---------------------------------------------------------------------
  // The settings.toml template

  /** The tools the template always lists, in this order. */
  const TemplateTools: seq<string> := ["claude", "cline", "github_copilot"]

  /** The [app] table, with the header and footer keys commented out. */
  const AppLine: string := "[app]\n"
  const HeaderComment: string := "# header = \"Custom header content\"\n"
  const FooterComment: string := "# footer = \"Custom footer content\"\n\n"
  const AppPreamble: string := AppLine + HeaderComment + FooterComment
  const DirNameLine: string := "dir_name = \"\"\n"
  const FileNameLine: string := "file_name = \"\"\n"
  const CopilotHint: string :=
    "# dir_name = \".github\"  # GitHub Copilot uses .github directory\n" + "# file_name = \"copilot-instructions.md\"\n"
  const ExcludeHint: string := "# exclude = [\"temp*.md\"]\n\n"

  /** Go's %t. */
  function FlagText(b: bool): string {
    if b then "true" else "false"
  }

  function SectionHead(tool: string): string {
    "[tools." + tool + "]\n"
  }

  function GenerateLine(generate: bool): string {
    "generate = " + FlagText(generate) + "\n"
  }

  /** The commented Copilot location, present only for a selected Copilot. */
  function HintLines(tool: string, generate: bool): string {
    if tool == "github_copilot" && generate then CopilotHint else ""
  }

  /** Everything of a section after its `generate` line. */
  function SectionTail(tool: string, generate: bool): string {
    DirNameLine + FileNameLine + HintLines(tool, generate) + ExcludeHint
  }

  function ToolSection(tool: string, generate: bool): string {
    SectionHead(tool) + GenerateLine(generate) + SectionTail(tool, generate)
  }

  /** The sections of `tools`, each generating iff its tool is selected. */
  function ToolSections(tools: seq<string>, selected: seq<string>): string {
    if tools == [] then ""
    else ToolSections(tools[..|tools| - 1], selected) + ToolSection(tools[|tools| - 1], tools[|tools| - 1] in selected)
  }

  function SettingsText(selected: seq<string>): string {
    AppPreamble + ToolSections(TemplateTools, selected)
  }

  /** The sections of three tools, one after the other. */
  lemma ThreeSections(a: string, b: string, c: string, selected: seq<string>)
    ensures ToolSections([a, b, c], selected)
      == ToolSection(a, a in selected) + ToolSection(b, b in selected) + ToolSection(c, c in selected)
  {
    var tools := [a, b, c];
    assert tools[..2] == [a, b];
    assert tools[..2][..1] == [a];
    assert tools[..2][..1][..0] == [];
    var sa, sb, sc := ToolSection(a, a in selected), ToolSection(b, b in selected), ToolSection(c, c in selected);
    assert ToolSections([a], selected) == [] + sa == sa;
    assert ToolSections([a, b], selected) == sa + sb;
    assert ToolSections(tools, selected) == sa + sb + sc;
  }

  /** A preamble and the sections of three tools, one after the other. */
  lemma PreambleThenThree(pre: string, tools: seq<string>, selected: seq<string>)
    requires |tools| == 3
    ensures pre + ToolSections(tools, selected) == pre
      + ToolSection(tools[0], tools[0] in selected)
      + ToolSection(tools[1], tools[1] in selected)
      + ToolSection(tools[2], tools[2] in selected)
  {
    ThreeSectionsOf(tools, selected);
    PrefixOfThree(pre, ToolSections(tools, selected), ToolSection(tools[0], tools[0] in selected),
      ToolSection(tools[1], tools[1] in selected), ToolSection(tools[2], tools[2] in selected));
  }

  lemma PrefixOfThree(pre: string, r: string, x: string, y: string, z: string)
    requires r == x + y + z
    ensures pre + r == pre + x + y + z
  {
  }

  /** The template is the preamble and then exactly the three sections. */
  lemma SettingsTextLayout(selected: seq<string>)
    ensures SettingsText(selected) == AppPreamble
      + ToolSection("claude", "claude" in selected)
      + ToolSection("cline", "cline" in selected)
      + ToolSection("github_copilot", "github_copilot" in selected)
  {
    PreambleThenThree(AppPreamble, TemplateTools, selected);
  }

  /** The value of `generate` is the first character after the section head
      and the "generate = " key. */
  lemma FlagPosition(tool: string, generate: bool)
    ensures |SectionHead(tool)| + 11 < |ToolSection(tool, generate)|
    ensures ToolSection(tool, generate)[|SectionHead(tool)| + 11] == (if generate then 't' else 'f')
  {
    var h := SectionHead(tool);
    var g := GenerateLine(generate);
    assert g[11] == FlagText(generate)[0];
    assert (h + g + SectionTail(tool, generate))[|h| + 11] == g[11];
  }

  /** Two equal texts that share a prefix agree on what follows it, and
      after two equal middles they agree on the rest. */
  lemma SharedPrefix(a: string, s1: string, s2: string, r1: string, r2: string, k: nat)
    requires a + s1 + r1 == a + s2 + r2
    requires k < |s1| && k < |s2|
    ensures s1[k] == s2[k]
    ensures s1 == s2 ==> r1 == r2
  {
    var x := a + s1 + r1;
    assert x[|a| + k] == s1[k];
    assert (a + s2 + r2)[|a| + k] == s2[k];
    if s1 == s2 {
      assert x[|a| + |s1|..] == r1;
      assert (a + s2 + r2)[|a| + |s2|..] == r2;
    }
  }

  lemma Regroup(p: string, x: string, y: string, z: string)
    ensures p + x + y + z == p + x + (y + z)
    ensures [] + y + z == y + z && [] + z + [] == z
  {
  }

  lemma EmptyLead(e: string, r1: string, r2: string, x1: string, y1: string, z1: string, x2: string, y2: string, z2: string)
    requires e == [] && r1 == x1 + y1 + z1 && r2 == x2 + y2 + z2 && r1 == r2
    ensures e + x1 + y1 + z1 == e + x2 + y2 + z2
  {
    assert e + x1 == x1 && e + x2 == x2;
  }

  /** Behind a common prefix, two sections of one tool agree exactly when
      their `generate` values do, and then what follows them agrees too. */
  lemma SectionsDecide(a: string, tool: string, g1: bool, g2: bool, r1: string, r2: string)
    requires a + ToolSection(tool, g1) + r1 == a + ToolSection(tool, g2) + r2
    ensures g1 == g2 && r1 == r2
  {
    FlagPosition(tool, g1);
    FlagPosition(tool, g2);
    SharedPrefix(a, ToolSection(tool, g1), ToolSection(tool, g2), r1, r2, |SectionHead(tool)| + 11);
  }

  /** Behind a common preamble, three sections decide their three flags. */
  lemma ThreeSectionsDecide(pre: string, a: string, b: string, c: string,
                            ga: bool, gb: bool, gc: bool, ha: bool, hb: bool, hc: bool)
    requires pre + ToolSection(a, ga) + ToolSection(b, gb) + ToolSection(c, gc)
          == pre + ToolSection(a, ha) + ToolSection(b, hb) + ToolSection(c, hc)
    ensures ga == ha && gb == hb && gc == hc
  {
    var a1, b1, c1 := ToolSection(a, ga), ToolSection(b, gb), ToolSection(c, gc);
    var a2, b2, c2 := ToolSection(a, ha), ToolSection(b, hb), ToolSection(c, hc);
    Regroup(pre, a1, b1, c1);
    Regroup(pre, a2, b2, c2);
    SectionsDecide(pre, a, ga, ha, b1 + c1, b2 + c2);
    SectionsDecide([], b, gb, hb, c1, c2);
    SectionsDecide([], c, gc, hc, [], []);
  }

  /** Selections that agree on every tool give the same sections. */
  lemma {:induction false} AgreeingSelections(tools: seq<string>, s1: seq<string>, s2: seq<string>)
    requires forall t :: t in tools ==> (t in s1 <==> t in s2)
    ensures ToolSections(tools, s1) == ToolSections(tools, s2)
  {
    if tools != [] {
      var init := tools[..|tools| - 1];
      assert forall t :: t in init ==> t in tools;
      AgreeingSelections(init, s1, s2);
    }
  }

  /** ThreeSections for a list of three tools. */
  lemma ThreeSectionsOf(tools: seq<string>, selected: seq<string>)
    requires |tools| == 3
    ensures ToolSections(tools, selected)
      == ToolSection(tools[0], tools[0] in selected) + ToolSection(tools[1], tools[1] in selected)
         + ToolSection(tools[2], tools[2] in selected)
  {
    assert tools == [tools[0], tools[1], tools[2]];
    ThreeSections(tools[0], tools[1], tools[2], selected);
  }

  /** Equal sections for three tools mean the selections agree on them. */
  lemma SameSectionsAgree(tools: seq<string>, s1: seq<string>, s2: seq<string>)
    requires |tools| == 3
    requires ToolSections(tools, s1) == ToolSections(tools, s2)
    ensures forall i :: 0 <= i < |tools| ==> (tools[i] in s1 <==> tools[i] in s2)
  {
    assert tools == [tools[0], tools[1], tools[2]];
    SameSectionsFlags(tools[0], tools[1], tools[2], s1, s2);
    ThreeFlagsAgree(tools, s1, s2);
  }

  /** SameSectionsAgree, one tool at a time. */
  lemma SameSectionsFlags(a: string, b: string, c: string, s1: seq<string>, s2: seq<string>)
    requires ToolSections([a, b, c], s1) == ToolSections([a, b, c], s2)
    ensures (a in s1) == (a in s2) && (b in s1) == (b in s2) && (c in s1) == (c in s2)
  {
    ThreeSections(a, b, c, s1);
    ThreeSections(a, b, c, s2);
    var e: string := [];
    SameThreeSections(e, ToolSections([a, b, c], s1), ToolSections([a, b, c], s2), a, b, c,
      a in s1, b in s1, c in s1, a in s2, b in s2, c in s2);
  }

  /** Equal texts made of the same three tools' sections decide the flags. */
  lemma SameThreeSections(e: string, r1: string, r2: string, a: string, b: string, c: string,
                          ga: bool, gb: bool, gc: bool, ha: bool, hb: bool, hc: bool)
    requires e == [] && r1 == r2
    requires r1 == ToolSection(a, ga) + ToolSection(b, gb) + ToolSection(c, gc)
    requires r2 == ToolSection(a, ha) + ToolSection(b, hb) + ToolSection(c, hc)
    ensures ga == ha && gb == hb && gc == hc
  {
    EmptyLead(e, r1, r2, ToolSection(a, ga), ToolSection(b, gb), ToolSection(c, gc),
      ToolSection(a, ha), ToolSection(b, hb), ToolSection(c, hc));
    ThreeSectionsDecide(e, a, b, c, ga, gb, gc, ha, hb, hc);
  }

  lemma ThreeFlagsAgree(tools: seq<string>, s1: seq<string>, s2: seq<string>)
    requires |tools| == 3
    requires (tools[0] in s1) == (tools[0] in s2)
    requires (tools[1] in s1) == (tools[1] in s2)
    requires (tools[2] in s1) == (tools[2] in s2)
    ensures forall i :: 0 <= i < |tools| ==> (tools[i] in s1 <==> tools[i] in s2)
  {
  }

  /** Behind a common preamble, the sections of three tools are equal
      exactly when the two selections agree on those tools. */
  lemma SectionsDecideSelection(pre: string, tools: seq<string>, s1: seq<string>, s2: seq<string>)
    requires |tools| == 3
    ensures pre + ToolSections(tools, s1) == pre + ToolSections(tools, s2) <==>
      forall t :: t in tools ==> (t in s1 <==> t in s2)
  {
    var r1, r2 := ToolSections(tools, s1), ToolSections(tools, s2);
    if pre + r1 == pre + r2 {
      assert r1 == (pre + r1)[|pre|..];
      assert r2 == (pre + r2)[|pre|..];
      SameSectionsAgree(tools, s1, s2);
    } else if forall t :: t in tools ==> (t in s1 <==> t in s2) {
      AgreeingSelections(tools, s1, s2);
    }
  }

  /** Two selections give the same template exactly when they agree on the
      three template tools: any other selected name is ignored. */
  lemma SettingsTextDecides(s1: seq<string>, s2: seq<string>)
    ensures SettingsText(s1) == SettingsText(s2) <==>
      forall t :: t in TemplateTools ==> (t in s1 <==> t in s2)
  {
    SectionsDecideSelection(AppPreamble, TemplateTools, s1, s2);
  }

  /** A text that ends in `f` + `e` does not end in `h` + `e` when `f` and
      `h` differ three characters from their ends. */
  lemma SuffixMismatch(u: string, f: string, h: string, e: string)
    requires |f| >= 3 && |h| >= 3 && f[|f| - 3] != h[|h| - 3]
    ensures !HasSuffix(u + f + e, h + e)
  {
    var text := u + f + e;
    var k := |text| - |e| - 3;
    assert text[k] == f[|f| - 3];
    if |h + e| <= |text| {
      var t := text[|text| - |h + e|..];
      assert t[|h| - 3] == text[k];
      assert t[|h| - 3] != (h + e)[|h| - 3];
    }
  }

  lemma HintEnding()
    ensures |CopilotHint| >= 3 && CopilotHint[|CopilotHint| - 3] == 'd'
    ensures |FileNameLine| >= 3 && FileNameLine[|FileNameLine| - 3] == '"'
  {
  }

  lemma Regroup7(x: string, h: string, g: string, d: string, f: string, c: string, e: string)
    ensures x + (h + g + (d + f + c + e)) == (x + h + g + d) + f + c + e
  {
  }

  lemma SuffixOfConcat(a: string, b: string, c: string)
    ensures HasSuffix(a + b + c, b + c)
  {
    assert (a + b + c)[|a + b + c| - |b + c|..] == b + c;
  }

  lemma DropEmpty(a: string, f: string, c: string, e: string)
    requires c == []
    ensures a + f + c + e == a + f + e
  {
  }

  /** A tool section ends with the file_name line, the hint lines and the
      exclude hint. */
  lemma SectionEnding(x: string, tool: string, generate: bool)
    ensures x + ToolSection(tool, generate)
      == (x + SectionHead(tool) + GenerateLine(generate) + DirNameLine) + FileNameLine + HintLines(tool, generate) + ExcludeHint
  {
    Regroup7(x, SectionHead(tool), GenerateLine(generate), DirNameLine, FileNameLine, HintLines(tool, generate), ExcludeHint);
  }

  lemma CopilotSuffixSelected(x: string)
    ensures HasSuffix(x + ToolSection("github_copilot", true), CopilotHint + ExcludeHint)
  {
    var tool := "github_copilot";
    SectionEnding(x, tool, true);
    var lead := x + SectionHead(tool) + GenerateLine(true) + DirNameLine + FileNameLine;
    assert HintLines(tool, true) == CopilotHint;
    SuffixOfConcat(lead, CopilotHint, ExcludeHint);
  }

  lemma CopilotSuffixUnselected(x: string)
    ensures !HasSuffix(x + ToolSection("github_copilot", false), CopilotHint + ExcludeHint)
  {
    var tool := "github_copilot";
    SectionEnding(x, tool, false);
    var lead := x + SectionHead(tool) + GenerateLine(false) + DirNameLine;
    DropEmpty(lead, FileNameLine, HintLines(tool, false), ExcludeHint);
    HintEnding();
    SuffixMismatch(lead, FileNameLine, CopilotHint, ExcludeHint);
  }

  /** The Copilot hint closes the template exactly when Copilot is selected. */
  lemma CopilotHintIff(selected: seq<string>)
    ensures HasSuffix(SettingsText(selected), CopilotHint + ExcludeHint) <==> "github_copilot" in selected
  {
    SettingsTextLayout(selected);
    var x := AppPreamble + ToolSection("claude", "claude" in selected) + ToolSection("cline", "cline" in selected);
    if "github_copilot" in selected {
      CopilotSuffixSelected(x);
    } else {
      CopilotSuffixUnselected(x);
    }
  }

  // ---------------------------------------------------------------------
  // The state

  class InitState {
    var workDir: string
    var systemPromptDir: string
    var existingFiles: seq<ExistingFile>
    var selectedFiles: seq<ExistingFile>
    var selectedTools: seq<string>
    var overwriteConfirmed: bool

    /** NewInitState, once the working directory is known. */
    constructor(workDir: string)
      ensures this.workDir == workDir
      ensures systemPromptDir == Join(workDir, SystemPromptDirName)
      ensures existingFiles == [] && selectedFiles == [] && selectedTools == []
      ensures overwriteConfirmed
    {
      this.workDir := workDir;
      systemPromptDir := Join(workDir, SystemPromptDirName);
      existingFiles := [];
      selectedFiles := [];
      selectedTools := [];
      overwriteConfirmed := true;
    }

    /** CheckSystemPromptDir: (false, no error) for a missing directory, an
        error when it cannot be examined, and true for anything present. */
    method CheckSystemPromptDir(d: Disk) returns (exists_: bool, err: Option<Error>)
      ensures exists_ <==> Stat(d, systemPromptDir) in {IsFile, IsDir}
      ensures err.Some? <==> Stat(d, systemPromptDir) == StatError
      ensures err.Some? ==> err.value == StatFailed(systemPromptDir)
    {
      var st := Stat(d, systemPromptDir);
      if st == NotExist {
        return false, None;
      }
      if st == StatError {
        return false, Some(StatFailed(systemPromptDir));
      }
      return true, None;
    }

    /** CreateSystemPromptDir. */
    method CreateSystemPromptDir(d: Disk) returns (r: WriteOutcome)
      ensures r == CreatedDir(systemPromptDir, d)
    {
      var m := MkdirAll(d, systemPromptDir);
      if m.Err? {
        return WriteOutcome(Some(MkdirFailed(systemPromptDir)), d);
      }
      return WriteOutcome(None, m.value);
    }

    /** writeFile: a file directly inside the `.system_prompt` directory. */
    method WriteInPromptDir(fileName: string, content: string, d: Disk) returns (r: WriteOutcome)
      ensures r == WriteNamed(systemPromptDir, fileName, content, d)
    {
      var filePath := Join(systemPromptDir, fileName);
      var w := WriteFile(d, filePath, content);
      if w.Err? {
        return WriteOutcome(Some(WriteFailed(fileName)), d);
      }
      return WriteOutcome(None, w.value);
    }

    /** WriteDefaultFile: the imported content of the selected files, in
        their order, goes to 001_default.md. */
    method WriteDefaultFile(d: Disk) returns (r: WriteOutcome)
      ensures r == WriteNamed(systemPromptDir, DefaultFileName, ImportedContent(selectedFiles), d)
    {
      if |selectedFiles| == 0 {
        r := WriteInPromptDir(DefaultFileName, "", d);
        return;
      }
      var content := "";
      for i := 0 to |selectedFiles|
        invariant content == ImportedContent(selectedFiles[..i])
      {
        var file := selectedFiles[i];
        assert selectedFiles[..i + 1][..i] == selectedFiles[..i];
        if i > 0 {
          content := content + "\n\n";
        }
        content := content + "# Imported from " + file.path + "\n\n" + file.content;
      }
      assert selectedFiles[..|selectedFiles|] == selectedFiles;
      r := WriteInPromptDir(DefaultFileName, content, d);
    }

    /** generateSettingsContent: the [app] table, then one section per
        template tool, generating exactly when the tool is selected. */
    method GenerateSettingsContent() returns (content: string)
      ensures content == SettingsText(selectedTools)
    {
      content := AppLine;
      content := content + HeaderComment;
      content := content + FooterComment;
      var selectedToolsMap := SelectedToolsMap(selectedTools);
      content := AppendToolSections(content, TemplateTools, selectedToolsMap, selectedTools);
    }

    /** WriteSettingsFile: the template goes to settings.toml. */
    method WriteSettingsFile(d: Disk) returns (r: WriteOutcome)
      ensures r == WriteNamed(systemPromptDir, SettingsFileName, SettingsText(selectedTools), d)
    {
      var content := GenerateSettingsContent();
      r := WriteInPromptDir(SettingsFileName, content, d);
    }

    /** scanExistingFiles: on success the scan result becomes ExistingFiles;
        on failure nothing changes. */
    method ScanExistingFiles(table: map<string, ToolPaths>, order: seq<string>, d: Disk) returns (err: Option<Error>)
      requires Enumerates(order, table.Keys)
      modifies this
      ensures Scanned(workDir, table, order, d).Err? ==>
        err == Some(Scanned(workDir, table, order, d).error) && existingFiles == old(existingFiles)
      ensures Scanned(workDir, table, order, d).Ok? ==>
        err == None && existingFiles == Scanned(workDir, table, order, d).value
      ensures workDir == old(workDir) && systemPromptDir == old(systemPromptDir)
      ensures selectedFiles == old(selectedFiles) && selectedTools == old(selectedTools)
      ensures overwriteConfirmed == old(overwriteConfirmed)
    {
      var files := InitScanner.ScanExistingFiles(workDir, table, order, d);
      if files.Err? {
        return Some(files.error);
      }
      existingFiles := files.value;
      return None;
    }
  }

  /** CreateSystemPromptDir's effect: the directory made, or the error naming it. */
  function CreatedDir(dir: string, d: Disk): (r: WriteOutcome)
    ensures r.err.None? <==> MkdirAll(d, dir).Ok?
    ensures r.err.None? ==> r.disk == d.(nodes := d.nodes[dir := Directory])
    ensures r.err.Some? ==> r == WriteOutcome(Some(MkdirFailed(dir)), d)
  {
    match MkdirAll(d, dir)
    case Err(_) => WriteOutcome(Some(MkdirFailed(dir)), d)
    case Ok(d') => WriteOutcome(None, d')
  }

  /** writeFile's effect: the file written into `dir`, or the error naming it. */
  function WriteNamed(dir: string, fileName: string, content: string, d: Disk): (r: WriteOutcome)
    ensures r.err.None? ==> r.disk == d.(nodes := d.nodes[Join(dir, fileName) := File(content)])
    ensures r.err.Some? ==> r == WriteOutcome(Some(WriteFailed(fileName)), d)
    ensures r.err.None? <==> WriteFile(d, Join(dir, fileName), content).Ok?
  {
    match WriteFile(d, Join(dir, fileName), content)
    case Err(_) => WriteOutcome(Some(WriteFailed(fileName)), d)
    case Ok(d') => WriteOutcome(None, d')
  }

  /** The selectedToolsMap of generateSettingsContent: true for exactly the
      selected tools. */
  method SelectedToolsMap(selectedTools: seq<string>) returns (m: map<string, bool>)
    ensures forall t :: (t in m && m[t]) <==> t in selectedTools
  {
    m := map[];
    for i := 0 to |selectedTools|
      invariant forall t :: t in m <==> t in selectedTools[..i]
      invariant forall t :: t in m ==> m[t]
    {
      assert selectedTools[..i + 1] == selectedTools[..i] + [selectedTools[i]];
      m := m[selectedTools[i] := true];
    }
    assert selectedTools[..|selectedTools|] == selectedTools;
  }

  /** The loop of generateSettingsContent over the template tools. */
  method AppendToolSections(prefix: string, allTools: seq<string>, selectedToolsMap: map<string, bool>,
                            ghost selected: seq<string>)
    returns (content: string)
    requires forall t :: (t in selectedToolsMap && selectedToolsMap[t]) <==> t in selected
    ensures content == prefix + ToolSections(allTools, selected)
  {
    content := prefix;
    assert allTools[..0] == [];
    for i := 0 to |allTools|
      invariant content == prefix + ToolSections(allTools[..i], selected)
    {
      var tool := allTools[i];
      var generate := tool in selectedToolsMap && selectedToolsMap[tool];
      ghost var before := ToolSections(allTools[..i], selected);
      content := AppendToolSection(content, tool, generate);
      assert allTools[..i + 1][..i] == allTools[..i];
      assert ToolSections(allTools[..i + 1], selected) == before + ToolSection(tool, generate);
      Regroup3(prefix, before, ToolSection(tool, generate));
    }
    assert allTools[..|allTools|] == allTools;
  }

  /** One step of generateSettingsContent's loop: a section, line by line. */
  method AppendToolSection(content: string, tool: string, generate: bool) returns (s: string)
    ensures s == content + ToolSection(tool, generate)
  {
    var head, line := SectionHead(tool), GenerateLine(generate);
    s := content + head;
    s := s + line;
    var tail := DirNameLine;
    tail := tail + FileNameLine;
    if tool == "github_copilot" && generate {
      tail := tail + CopilotHint;
    } else {
      tail := tail + "";
    }
    tail := tail + ExcludeHint;
    assert tail == SectionTail(tool, generate);
    s := s + tail;
    assert content + head + line + tail == content + (head + line + tail);
  }

  /** RunInit up to the interactive part: the state is created, the
      overwrite question is armed iff `.system_prompt` already exists, and
      the existing tool files are scanned; the first failure aborts. */
  method RunInit(cwd: Result<string>, table: map<string, ToolPaths>, order: seq<string>, d: Disk)
    returns (r: Result<InitState>)
    requires Enumerates(order, table.Keys)
    ensures cwd.Err? ==> r == Err(cwd.error)
    ensures cwd.Ok? && Stat(d, Join(cwd.value, SystemPromptDirName)) == StatError ==>
      r == Err(StatFailed(Join(cwd.value, SystemPromptDirName)))
    ensures cwd.Ok? && Stat(d, Join(cwd.value, SystemPromptDirName)) != StatError ==>
      (Scanned(cwd.value, table, order, d).Err? ==> r == Err(Scanned(cwd.value, table, order, d).error))
    ensures r.Ok? <==>
      cwd.Ok? && Stat(d, Join(cwd.value, SystemPromptDirName)) != StatError && Scanned(cwd.value, table, order, d).Ok?
    ensures r.Ok? ==>
      && fresh(r.value)
      && cwd.Ok?
      && r.value.workDir == cwd.value
      && r.value.systemPromptDir == Join(cwd.value, SystemPromptDirName)
      && (r.value.overwriteConfirmed <==> Stat(d, r.value.systemPromptDir) == NotExist)
      && r.value.existingFiles == Scanned(cwd.value, table, order, d).value
      && r.value.selectedFiles == [] && r.value.selectedTools == []
  {
    if cwd.Err? {
      return Err(cwd.error);
    }
    var state := new InitState(cwd.value);
    var exists_, err := state.CheckSystemPromptDir(d);
    if err.Some? {
      return Err(err.value);
    }
    if exists_ {
      state.overwriteConfirmed := false;
    }
    err := state.ScanExistingFiles(table, order, d);
    if err.Some? {
      return Err(err.value);
    }
    return Ok(state);
  }
}
