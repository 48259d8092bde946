# system-prompt-gen in Dafny

A model of the core of `system-prompt-gen`. This command-line tool has two jobs:

- **Generate.** It collects the Markdown prompt files under an input directory (by default `.system_prompt`) and leaves out the ones that match the exclude patterns. It sorts them by file name and renders them into one document: the header, then one `# <stem>` section per file, then the footer. It writes that document to every enabled AI-tool target: `CLAUDE.md`, `.clinerules` and any custom tools from `settings.toml`. A configuration without settings is the legacy mode, which writes to a plain list of output files.
- **Init.** An interactive wizard scans the working directory for instruction files that AI tools already use. It lets the user pick files to import and tools to enable. It then creates `.system_prompt/` with `001_default.md` and a `settings.toml` template.

The model has one module per source file, plus small supporting modules:

| file | module | models |
|---|---|---|
| outcomes.dfy | `Outcomes` | `Option`, `Result` and the error causes the Go code returns as `error` |
| text.dfy | `Text` | the parts of Go's `strings` package in use, plus Go's byte-wise string order and `sort.Strings` |
| paths.dfy | `Paths` | `filepath.Join`, `Dir`, `Base` and `Rel` on slash-separated paths |
| filesystem.dfy | `FileSystem` | the disk as a value: a map from path to file or directory, a set of paths on which every OS call fails, and a set of files whose permissions deny reading and writing while `os.Stat` still succeeds |
| iteration.dfy | `Iteration` | the order in which a Go `range` over a map visits its keys: any duplicate-free listing of the keys |
| config.dfy | `Config` | `internal/config/config.go` |
| generator.dfy | `Generator` | `internal/generator/generator.go` |
| scanner.dfy | `InitScanner` | `internal/init/scanner.go` |
| init.dfy | `Init` | `internal/init/init.go`; the `InitState` class holds the fields the Go methods update |
| init_ui.dfy | `InitUI` | `internal/init/ui.go`; the wizard's state machine; the `Selection` class is a shared `map[int]bool` |
| tui.dfy | `Tui` | `internal/ui/tui.go`; the generator's terminal UI as a transition function on a value |
| i18n.dfy | `I18n` | `internal/i18n/i18n.go` |

Operations that touch the disk take a `Disk` and return the error together with the new `Disk`. Go ranges over maps in an unspecified order, so that order is an explicit parameter. It is constrained to be a listing of the keys, and the lemmas show what does not depend on it: which targets are written, which files are found, and the sorted tool list.

Two points where the code does less than one might expect, and the model follows the code:
- Prompt files are sorted by file name with `sort.Slice`, which is not stable. Two prompt files with the same name in different sub-directories can therefore come out in either order. The model promises ordering by name and a permutation of the collected files, nothing more.
- A failing write stops the write loop, but the files already written stay written. `Generator.WriteTargetsFailure` and `Generator.WriteLegacyFailure` state exactly that.

## Model

| member | source | states |
|---|---|---|
| Config.DefaultSettings | internal/config/config.go:39-56 | both built-in tools generate in the working directory under `CLAUDE.md` and `.clinerules`; no custom tools; no language |
| Config.DefaultConfig | internal/config/config.go:58-67 | legacy mode: input `.system_prompt`, outputs `CLAUDE.md` and `.clinerules`, header `# System Prompt\n\n`, no excludes, empty footer |
| Config.WithDefaultFileNames | internal/config/config.go:83-88 | an empty tool file name becomes the tool's default; a given one is kept; nothing else changes |
| Config.WithDefaultFileNamesIdempotent | internal/config/config.go:83-88 | filling the defaults twice equals filling them once |
| Config.DefaultSettingsAreFilled | internal/config/config.go:39-56 | the default settings are a fixed point of the default fill |
| Config.LoadSettings | internal/config/config.go:72-91 | a missing file gives the defaults; an undecodable one gives an error; a decoded one gives its value with the file names filled |
| Config.UnmarshalOver | internal/config/config.go:100-108 | each field the document sets replaces the default, each field it leaves out keeps the default, and Settings is never set |
| Config.LoadConfig | internal/config/config.go:95-112 | a missing file gives `DefaultConfig()`; a decode error is reported; a decoded document is laid over `DefaultConfig()` field by field; a loaded config never has Settings |
| Config.LoadConfigDefaultsMissingFields | internal/config/config.go:100-108 | a decoded document always loads, and every field it leaves out has its default value |
| Config.LoadConfigWithSettings | internal/config/config.go:116-129 | fails exactly when either load fails, config first; on success it is the loaded config with the loaded, filled settings |
| Text.TrimSuffix | internal/generator/generator.go:90 | removes one trailing `.md` when present: the result plus the suffix is the input |
| Text.TrimSpace | internal/init/scanner.go:71 | the result is the input's slice left after cutting only white space from the front and the back; it is empty exactly when the input is all white space, and otherwise neither starts nor ends with white space |
| Text.BeforeFirst | internal/i18n/i18n.go:73-74 | a prefix of the input without the separator, cut exactly at the first separator |
| Text.LessTotal | internal/generator/generator.go:68-70 | Go's `<` on strings is total |
| Text.LessTransitive | internal/generator/generator.go:68-70 | Go's `<` on strings is transitive |
| Text.LessIrreflexive | internal/generator/generator.go:68-70 | no string sorts before itself |
| Text.InsertSorted | internal/init/ui.go:70 | inserting into a sorted list keeps it sorted and adds exactly one element |
| Text.SortStrings | internal/init/ui.go:70 | `sort.Strings`: the result is sorted and a permutation of the input |
| Text.SortedUnique | internal/init/ui.go:66-70 | two sorted permutations of one list are equal, so sorting erases the map's iteration order |
| Paths.LastSlash | internal/generator/generator.go:157 | the index of the last separator, with none after it |
| Paths.JoinSplits | internal/generator/generator.go:149-157 | `Dir` and `Base` recover the directory and name that `Join` put together |
| Paths.RelOfJoin | internal/init/scanner.go:85-91 | `Rel` undoes `Join` below the working directory |
| FileSystem.Stat | internal/init/scanner.go:51-62 | the call fails exactly on a broken path; otherwise the path does not exist, is a directory or is a file, each exactly when the disk says so |
| FileSystem.ReadFile | internal/generator/generator.go:50-53 | succeeds exactly on a file that is neither broken nor locked, and returns its content |
| FileSystem.WriteFile | internal/generator/generator.go:165 | succeeds exactly when the path is neither broken nor locked and not a directory; only that path changes, and it becomes the content |
| FileSystem.MkdirAll | internal/generator/generator.go:158 | succeeds unless the path is broken or is a file; existing files are kept |
| FileSystem.WriteThenRead | internal/generator/generator.go:165 | reading a written file gives back what was written |
| Iteration.EnumerationLength | internal/generator/generator.go:146 | a map's iteration visits each key once |
| Iteration.EnumerationsSameMultiset | internal/init/ui.go:67-69 | two iterations of one map visit the same keys |
| Generator.ShouldExclude | internal/generator/generator.go:75-82 | true exactly when some exclude pattern matches the base name |
| Generator.WalkedFailsIff | internal/generator/generator.go:37-66 | the walk fails exactly when some entry reports an error or an eligible file cannot be read |
| Generator.WalkedExactly | internal/generator/generator.go:42-59 | on success the collected files are exactly the non-excluded `.md` files, with their read contents |
| Generator.PrefixFailure | internal/generator/generator.go:37-66 | the walk stops at the first failing entry |
| Generator.Insert | internal/generator/generator.go:68-70 | inserting by file name keeps the list ordered and adds exactly one file |
| Generator.SortByFilename | internal/generator/generator.go:68-70 | the result is ordered by file name and is a permutation of the input |
| Generator.CollectPromptFiles | internal/generator/generator.go:34-73 | a walk error is returned; otherwise the collected files, sorted by name and a permutation of what the walk found |
| Generator.Stem | internal/generator/generator.go:90 | the heading is the file name without one trailing `.md` |
| Generator.GeneratePrompt | internal/generator/generator.go:84-102 | the builder loop produces the rendered document: header, one section per file in order, footer |
| Generator.WriteSection | internal/generator/generator.go:90-96 | one loop iteration appends exactly the file's section |
| Generator.SectionShape | internal/generator/generator.go:90-96 | a section is its heading and content, ends in a blank line, and adds a newline only when the content lacks one |
| Generator.SectionsAppend | internal/generator/generator.go:89-97 | rendering concatenated file lists concatenates their sections |
| Generator.RenderEmpty | internal/generator/generator.go:84-102 | with no files the document is the header followed by the footer |
| Generator.RenderCons | internal/generator/generator.go:84-102 | the first file's section directly follows the header |
| Generator.SectionOfMarkdown | internal/generator/generator.go:90-96 | the section of `<stem>.md` is `# <stem>`, a blank line, the content, and the closing newlines |
| Generator.RenderExample | internal/generator/generator.go:84-102 | two files, one without a final newline, render to the expected document |
| Generator.PathsOf | internal/generator/generator.go:177-206 | one path per target, in target order |
| Generator.GetGeneratedTargets | internal/generator/generator.go:177-206 | legacy mode lists the output files; settings mode lists the paths of the targets the writer writes for the same visiting order of the custom map |
| Generator.CustomTargetsMembership | internal/generator/generator.go:146-153 | a custom tool is a target exactly when it generates and has both a path and a file name |
| Generator.CustomTargetsCount | internal/generator/generator.go:146-153 | one target per enabled custom tool |
| Generator.TargetsExactly | internal/generator/generator.go:119-153 | the targets are exactly Claude and Cline when enabled (a missing path means the current directory) plus the enabled custom tools, whatever the map's order |
| Generator.DefaultTargetsMatchLegacy | internal/generator/generator.go:119-143 | the default settings write the same two files as legacy mode |
| Generator.WriteOutputFiles | internal/generator/generator.go:104-175 | the loop's error and disk are those of the write specification: legacy files in order, or each target's directory and then its file, stopping at the first failure |
| Generator.WriteLegacyFiles | internal/generator/generator.go:105-115 | the legacy loop's error and disk are those of writing the listed files in order, stopping at the first failure |
| Generator.WriteTargetFiles | internal/generator/generator.go:156-174 | the settings loop's error and disk are those of creating each target's directory and writing its file, stopping at the first failure |
| Generator.WriteLegacyFailure | internal/generator/generator.go:105-115 | in legacy mode, on failure the files listed before the failing one hold the document, the error names the failing file, and nothing else changed |
| Generator.WriteTargetFrame | internal/generator/generator.go:156-171 | writing one target changes nothing but its file and its directory |
| Generator.WriteTargetsFrame | internal/generator/generator.go:156-172 | writing the targets changes nothing outside their files and directories |
| Generator.WriteTargetsKeepContent | internal/generator/generator.go:156-172 | a file written by an earlier target keeps the content while later targets are written |
| Generator.WriteTargetsSuccess | internal/generator/generator.go:156-174 | on success every target's file holds the document |
| Generator.WriteTargetsFailure | internal/generator/generator.go:156-171 | on failure the targets before the failing one were written, the error is that target's, and nothing later was attempted |
| Generator.WriteLegacySuccess | internal/generator/generator.go:105-115 | in legacy mode, on success every listed file holds the document and nothing else changes |
| Generator.Run | internal/generator/generator.go:208-229 | a collect error and an empty collection fail without writing; otherwise the sorted files are rendered and written to every target |
| InitScanner.MakeRelativePath | internal/init/scanner.go:85-91 | the path relative to the working directory, or the full path when there is none |
| InitScanner.FindToolFile | internal/init/scanner.go:41-83 | an error exactly when the stat fails (a stat error) or the file cannot be read (a read error); nothing for a missing path, a directory or a blank file; otherwise the tool, its relative path and its trimmed, non-empty content |
| InitScanner.ScanExistingFiles | internal/init/scanner.go:25-39 | the loop's result is the scan specification over the known-tool table |
| InitScanner.ScanStep | internal/init/scanner.go:28-36 | one iteration extends the scan by one tool's probe, or ends it with that tool's error |
| InitScanner.ScannedAbsorbsError | internal/init/scanner.go:29-32 | the scan stops at the first tool whose probe fails |
| InitScanner.ScannedMembers | internal/init/scanner.go:25-39 | a file is reported exactly when its tool's probe finds one |
| InitScanner.ScannedOnePerTool | internal/init/scanner.go:25-39 | at most one file per tool, and only for listed tools |
| InitScanner.ScannedFailsIff | internal/init/scanner.go:29-32 | the scan fails exactly when some tool's probe fails, and the error names that tool |
| InitScanner.ScanBound | internal/init/scanner.go:28 | no more files than known tools, whatever the iteration order |
| InitScanner.ReportedPathInWorkDir | internal/init/scanner.go:44-45 | a tool file in the working directory is reported by its file name |
| InitScanner.ReportedPathInToolDir | internal/init/scanner.go:46-47 | a tool file in a tool directory is reported as `dir/file` |
| Init.ImportedContentConcat | internal/init/init.go:70-76 | imported blocks are joined by one blank line |
| Init.ImportedContentCons | internal/init/init.go:71-75 | the first block has no separator before it |
| Init.FlagPosition | internal/init/init.go:109-110 | each tool section carries `generate = true` or `false` at a fixed place |
| Init.SettingsTextLayout | internal/init/init.go:96-118 | the template is the `[app]` preamble followed by the claude, cline and github_copilot sections, in that order |
| Init.SettingsTextDecides | internal/init/init.go:100-118 | two selections give the same template exactly when they agree on each of the three tools |
| Init.CopilotHintIff | internal/init/init.go:113-117 | the template ends with the Copilot directory hint exactly when github_copilot is selected |
| Init.InitState.constructor | internal/init/init.go:27-41 | the state for a working directory: the prompt directory inside it, no files or tools, overwrite confirmed |
| Init.InitState.CheckSystemPromptDir | internal/init/init.go:44-53 | exists when stat finds anything; an error exactly when stat fails otherwise |
| Init.InitState.CreateSystemPromptDir | internal/init/init.go:56-61 | creates the prompt directory or reports that it could not |
| Init.InitState.WriteDefaultFile | internal/init/init.go:64-79 | writes `001_default.md` holding the imported blocks of the selected files (empty when none) |
| Init.InitState.GenerateSettingsContent | internal/init/init.go:95-121 | the builder produces the settings template for the selected tools |
| Init.InitState.WriteSettingsFile | internal/init/init.go:82-85 | writes `settings.toml` holding that template |
| Init.InitState.ScanExistingFiles | internal/init/init.go:149-157 | stores the scan result, or returns its error and leaves the state unchanged |
| Init.InitState.WriteInPromptDir | internal/init/init.go:87-93 | writing a file into the prompt directory has exactly the effect `WriteNamed` specifies |
| Init.CreatedDir | internal/init/init.go:56-61 | succeeds exactly when `MkdirAll` does; on failure the disk is unchanged |
| Init.WriteNamed | internal/init/init.go:87-93 | writes the file inside the prompt directory; on failure the error names the file and the disk is unchanged |
| Init.SelectedToolsMap | internal/init/init.go:102-105 | a tool maps to true exactly when it is selected |
| Init.AppendToolSections | internal/init/init.go:107-118 | the loop appends each tool's section in table order |
| Init.RunInit | internal/init/init.go:124-147 | succeeds exactly when the working directory is known, the stat of the prompt directory does not fail and the scan succeeds; otherwise the first of those errors; an existing prompt directory clears the overwrite confirmation |
| InitUI.Selection.Toggle | internal/init/ui.go:143-150 | flips one mark and leaves the others |
| InitUI.MaxCursorPerScreen | internal/init/ui.go:128-141 | the last cursor position of each screen: 1 on the two yes/no screens, the list length minus one on the two selection screens, 0 elsewhere |
| InitUI.FirstScreen | internal/init/ui.go:79-88 | overwrite confirmation first when not confirmed; otherwise file selection when files exist, tool selection when none |
| InitUI.InitialModel | internal/init/ui.go:64-88 | empty selections, cursor 0, the sorted tool names, the first screen, and a valid model |
| InitUI.AllToolsOrderFree | internal/init/ui.go:66-70 | the tool list does not depend on the map's iteration order |
| InitUI.CollectSelected | internal/init/ui.go:168-173 | collects each marked index below the length once, in some order, and nothing else |
| InitUI.PicksMarked | internal/init/ui.go:168-173 | every collected item is a marked item; nothing is collected from an empty list |
| InitUI.ProcessSuccess | internal/init/ui.go:201-226 | on success the prompt directory, `001_default.md` and `settings.toml` all exist with their contents |
| InitUI.ProcessFailure | internal/init/ui.go:204-221 | a failed step reports its error and stops the steps after it |
| InitUI.ProcessInit | internal/init/ui.go:201-226 | success quits from the success screen; a failure shows the error screen with the step's error |
| InitUI.HandleEnter | internal/init/ui.go:152-199 | each screen's enter: confirm or quit, store the picked files or tools and move on, run or cancel the processing |
| InitUI.Update | internal/init/ui.go:99-126 | the key cases (quit, cursor moves within bounds, toggle, enter, ignore); only enter changes the shared state, and only the field its screen sets; validity of the model is kept |
| InitUI.ToggleSelection | internal/init/ui.go:143-150 | toggles the mark under the cursor on the selection screens, and nothing elsewhere |
| Tui.InitialModel | internal/ui/tui.go:56-62 | loading, with no files, no error and no content |
| Tui.Update | internal/ui/tui.go:75-109 | quit keys quit; confirming on success writes the document, quitting or showing the error; `r` retries from the error screen; a collect result shows success with the rendered document or shows the error |
| Tui.UpdateKeepsConsistent | internal/ui/tui.go:75-109 | a success screen always holds the document its files render to, and an error screen always has an error |
| Tui.GeneratePrompts | internal/ui/tui.go:68-73 | the collect command reports the sorted files or the collect error |
| Tui.CollectThenWrite | internal/ui/tui.go:81-105 | collecting and then confirming writes the rendered document to every target and quits |
| I18n.ExtractLang | internal/i18n/i18n.go:72-76 | the code is a prefix of the value and holds neither `.` nor `_` |
| I18n.ExtractLangIdentity | internal/i18n/i18n.go:72-76 | a value without `.` or `_` is its own code |
| I18n.ExtractLangIdempotent | internal/i18n/i18n.go:72-76 | extracting twice equals extracting once |
| I18n.ExtractLangOf | internal/i18n/i18n.go:72-76 | a code followed by `.` or `_` and anything else gives the code |
| I18n.ExtractLangJapanese | internal/i18n/i18n.go:72-76 | `ja_JP.UTF-8` gives `ja` |
| I18n.ExtractLangBare | internal/i18n/i18n.go:72-76 | `fr` gives `fr` |
| I18n.Initialize | internal/i18n/i18n.go:26-58 | the accepted languages are the given language, then LANG's code, then LC_ALL's code (each only when set), then `ja` and `en` |
| I18n.Localize | internal/i18n/i18n.go:90-97 | a message is found exactly when some accepted language has it |
| I18n.LocalizeFirst | internal/i18n/i18n.go:90-97 | the message found comes from the first accepted language that has it |
| I18n.T | internal/i18n/i18n.go:79-99 | the message ID itself without a localizer or when no language has it; otherwise a catalog entry for the ID |
| I18n.MergeTemplateData | internal/i18n/i18n.go:107-112 | the data holds `Count` and every extra key; extra values win, including over `Count` |
| I18n.TWithCount | internal/i18n/i18n.go:102-123 | the same message as `T`, with the merged template data |

## Left out

- Paths.Join: cleans only an empty element, a directory that is exactly `.`, and the root `/`. A directory such as `./docs` (a custom tool's `path`) is kept as written, so `Join("./docs", "X.md")` is `./docs/X.md` where `filepath.Join` gives `docs/X.md`; since disk paths are plain strings, the model treats those two spellings as different files and `GetGeneratedTargets` reports the uncleaned one. `..` elements and doubled or trailing slashes are not cleaned either.
- Paths.Rel: handles only targets below the base.
- Text.TrimSpace: white space is ASCII only, where Go's `TrimSpace` also strips Unicode spaces.
- Generator.GetGeneratedTargets: the Go code ranges the custom-tool map separately here and in `WriteOutputFiles`, so its list can be in a different order from the writes; the model lists them in the order it is given, and only the set of targets is order-free.
- Glob syntax. `filepath.Match` is a parameter (`Matcher`), and so is its error, which the source ignores.
- Directory structure. `WriteFile` does not check that the parent directory exists, and `MkdirAll` records only the named directory, not its missing ancestors.
- The directory walk. `filepath.WalkDir` is its list of visited entries, in walk order, given as input.
- Decoding. TOML and JSON decoding, and `Config.Save`, are not modelled; the decoded documents are inputs.
- `os.Getwd` is an input of `Init.RunInit`.
- The known-tool table (`config.DefaultKnownToolFileNames`) is not part of this model. It is a parameter of the scanner and of the init UI.
- `runInteractiveInit` and `RunInteractive` start the bubbletea program; its event loop is not modelled. `Init.RunInit` stops where the program would start; the UI's transitions are `InitUI.Update` and `Tui.Update`.
- The `View` and `render*` functions, styles and screen text are not modelled.
- Error message text is not modelled. Errors keep only their cause, the path and the tool.
- The go-i18n bundle is a catalog from language to message table. The following are not modelled:
  - loading the embedded locale files and their load errors;
  - language-tag matching beyond equality;
  - plural rules;
  - template expansion.
- I18n.Localize: the fallback rule, that the first accepted language holding the message supplies it, is the model's own reading of go-i18n's localizer, which is not part of this model.
- I18n.T: does not model the template data it passes along, because messages are not expanded.
- The command-line layer (`cmd/`) is not modelled.
