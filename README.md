# Repository analyzer: the deterministic core, in Dafny

The analyzer takes a GitHub repository URL, fetches the repository's file tree and a few key
files, scores its health, classifies the project, chooses source files for a summary, and
asks a language model for missing files such as `.gitignore` or `API_DOCS.md`. Most of that
is calls to GitHub and to the model. This project models the part that is not: the decisions
made over lists of paths and file texts. Each module follows one source file.

- `Health` covers the health scorer (`src/lib/tools/analyzeStructure.ts`).
  - `Assess` is a reference definition. Nine checks form a fixed table, recording for each which issue it reports, when it fires, and which score it lowers by how much.
  - The issue list is the fired rows in table order. Each score is 100 minus the penalties of its reported issues, floored at 0. The overall score is their mean rounded half up.
  - `AnalyzeStructureExecute` is the source's step-by-step computation, a sequence of pushes and decrements, proved equal to `Assess`.
- `FetchRepo` covers `fetchRepoExecute` (`src/lib/tools/fetchRepo.ts`): parse the URL, keep the blob paths of the tree, read the key files that exist, derive the missing-file flags, and score.
  - The scoring block that the source repeats inline is the health scorer line for line. It is modelled by calling `Health.AnalyzeStructureExecute`, so both copies yield `Health.Assess` of the same inputs.
- `GitHub` covers `parseGitHubUrl` (`src/lib/github.ts`). The unanchored regular expression is modelled as the leftmost index where the pattern matches, and the first `.git` is dropped from the repository segment.
- `SummarizeRepo` covers `src/lib/tools/summarizeRepo.ts`:
  - the project-type detector, proved to be a first-match table;
  - the entry-point table;
  - the three-tier choice of at most 25 files, with the tier-3 precedence quirk as written;
  - the read loop with its 10000-character cut.
- `Gitignore` covers `src/lib/tools/generateGitignore.ts`: the framework and package-manager decision table, the chained placeholder replacement, and the shape of the result.
- `ApiDocs` covers `src/lib/tools/generateApiDocs.ts`:
  - the code-file filter and the cap of 10 files;
  - the 2000-character sections;
  - the failure when nothing could be read;
  - the retry loop of at most two attempts.
- `Prompts` covers the prompt texts of `src/lib/prompts.ts` that these tools fill, `FETCH_REPO_PROMPT` and `GENERATE_FILES_PROMPT`.
- `Wrappers`, `Strings` and `Seqs` hold shared helpers.
  - `Wrappers`: `Option`, and `Reply`, which is a text or a thrown error with or without a message.
  - `Strings`: JavaScript's `includes`, `startsWith`, `endsWith`, `replace` with a string pattern, `lastIndexOf`, `join`, and ASCII `toLowerCase`.
  - `Seqs`: `filter` and `slice(0, n)` with their properties.

Calls the model cannot see are parameters:

- `fileContent(path)` is the contents request's answer; `None` stands for `null`, and in the summarizer also for a thrown request.
- `remote` is the outcome of the metadata and tree requests.
- `generate(prompt)` (or `generate(prompt, attempt)` for the retrying tool) is what the model call yields.
- `parsedDeps` is the result of `JSON.parse` on `package.json`: its dependency and devDependency key lists, or `None` when parsing throws.

The test check `!files.some(...)` is true of an empty list, so the no-tests issue is
reported for an empty file list (`Health.EmptyFileList`).

## Model

| member | source | states |
|---|---|---|
| `GitHub.SegmentEnd` | src/lib/github.ts:61 | a `[^\/]+` run ends at the first '/' after its start, or at the end of the text, and holds no '/' |
| `GitHub.FirstMatch` | src/lib/github.ts:61 | the result is an index where the pattern matches, and no earlier index matches; None only when no index from the start on matches |
| `GitHub.ParseGitHubUrl` | src/lib/github.ts:60-64 | null exactly when the pattern matches nowhere; otherwise the owner is non-empty and has no '/', and the result is the two groups of the leftmost match, with the first ".git" of the repository removed |
| `GitHub.ParseEmbedded` | src/lib/github.ts:61-63 | the match is unanchored and ignores everything after the repository segment: a prefix without 'g', then "github.com/owner/repo", then a tail starting with '/' parses to owner and repo minus its first ".git" |
| `GitHub.ParseRoundTrip` | src/lib/github.ts:60-64 | "https://github.com/" + owner + "/" + repo parses back to (owner, repo), for segments without '/' and a repo without ".git" |
| `GitHub.RepoStripsFirstGitOnly` | src/lib/github.ts:63 | only the first ".git" is removed: "x.git.git" gives "x.git", and ".git" alone gives "" |
| `Health.ReadmeText` | src/lib/tools/analyzeStructure.ts:34 | a non-empty README.md wins over readme.md; otherwise the text is readme.md's when non-empty, else ""; it is empty exactly when both are absent or empty |
| `Health.ReportedMembers` | src/lib/tools/analyzeStructure.ts:29-99 | an issue is reported by the first k checks exactly when its check is among them and fires |
| `Health.ReportedInOrder` | src/lib/tools/analyzeStructure.ts:29-99 | issues appear in the order the checks run, so none appears twice |
| `Health.DeductedIsTotal` | src/lib/tools/analyzeStructure.ts:26-99 | the points deducted from a score equal the summed penalties of the reported issues of that score |
| `Health.RoundHalf` | src/lib/tools/analyzeStructure.ts:104 | `Math.round(n / 2)` on a natural: n <= 2r <= n + 1 |
| `Health.RecommendationsMembers` | src/lib/tools/analyzeStructure.ts:107-111 | an action is recommended exactly when its file is missing, in the fixed order readme, gitignore, license, contributing |
| `Health.Assess` | src/lib/tools/analyzeStructure.ts:19-124 | both scores lie in [0, 100]; overall is their mean rounded half up; an issue is reported exactly when its check fires |
| `Health.AssessIssuesInOrder` | src/lib/tools/analyzeStructure.ts:29-99 | the report's issues are in check order |
| `Health.ReportedCount` | src/lib/tools/analyzeStructure.ts:30-39 | missing and short README exclude each other, so the first k checks report at most k - 1 issues |
| `Health.AtMostNineIssues` | src/lib/tools/analyzeStructure.ts:29-99 | at most nine issues, never both a missing and a short README |
| `Health.ScoresFromIssues` | src/lib/tools/analyzeStructure.ts:26-103 | each score is 100 minus the penalties of exactly its reported issues, floored at 0 |
| `Health.DocumentationDeductionAtMost45` | src/lib/tools/analyzeStructure.ts:30-54 | the documentation checks deduct at most 45 points |
| `Health.DocumentationAtLeast55` | src/lib/tools/analyzeStructure.ts:26-102 | the documentation score is never below 55, so only the structure score can reach the floor |
| `Health.DeductedAllFire` | src/lib/tools/analyzeStructure.ts:41-99 | when every check of an area fires, the deduction is that area's full penalty |
| `Health.StructureDeductionAll` | src/lib/tools/analyzeStructure.ts:41-99 | the six structure checks together deduct 110 points |
| `Health.StructureFloorsAtZero` | src/lib/tools/analyzeStructure.ts:41-103 | when every structure check fires, the structure score is clamped to exactly 0 |
| `Health.SameFiringSameReport` | src/lib/tools/analyzeStructure.ts:19-124 | the report depends only on which checks fire and on the missing flags |
| `Health.SameFiringSameIssues` | src/lib/tools/analyzeStructure.ts:29-99 | checks that fire alike give the same issues and the same deductions |
| `Health.SamePathsSameFiring` | src/lib/tools/analyzeStructure.ts:57-99 | the file checks are existence tests: the same set of paths (and the same side of the ten-file bound) fires the same checks |
| `Health.RepeatedPathChangesNothing` | src/lib/tools/analyzeStructure.ts:57-99 | listing a path again, in a list of more than ten, leaves the report unchanged |
| `Health.NoTestsIff` | src/lib/tools/analyzeStructure.ts:91-99 | the test issue is reported exactly when no path contains "test" or "spec"; "__tests__" adds nothing |
| `Health.EmptyFileList` | src/lib/tools/analyzeStructure.ts:57-99 | an empty file list reports missing tests but no committed artefacts and no missing source folder |
| `Health.NoSourceFolderIff` | src/lib/tools/analyzeStructure.ts:80-88 | the source-folder issue is reported exactly when there are more than ten files and none starts with src/, lib/ or app/ |
| `Health.ShortReadmeIff` | src/lib/tools/analyzeStructure.ts:30-39 | the short-README issue is reported exactly when the README is not missing and its text, from README.md falling back to readme.md, is non-empty and under 500 characters |
| `Health.AssessRecommendations` | src/lib/tools/analyzeStructure.ts:107-111 | the recommendations are exactly the actions of the missing files, in fixed order, and depend on nothing else |
| `Health.ProgressStep` | src/lib/tools/analyzeStructure.ts:29-99 | running one check keeps the running issues and scores equal to those of the reference table |
| `Health.CheckReadme` | src/lib/tools/analyzeStructure.ts:29-39 | the README block leaves the issues and documentation score of the first two table rows |
| `Health.CheckMissingFiles` | src/lib/tools/analyzeStructure.ts:41-54 | the gitignore, license and contributing checks leave the issues and scores of the first five rows |
| `Health.CheckCommonIssues` | src/lib/tools/analyzeStructure.ts:56-77 | the node_modules, .env and build checks leave the issues and scores of the first eight rows |
| `Health.CheckLayout` | src/lib/tools/analyzeStructure.ts:79-99 | the source-folder and test checks leave the issues and scores of all ten rows |
| `Health.GenerateRecommendations` | src/lib/tools/analyzeStructure.ts:106-111 | the pushed actions are the reference recommendations |
| `Health.AnalyzeStructureExecute` | src/lib/tools/analyzeStructure.ts:19-124 | the step-by-step computation returns exactly `Assess` of files, missing flags and key files, whatever the metadata |
| `FetchRepo.BlobPaths` | src/lib/tools/fetchRepo.ts:27-29 | no more paths than tree entries |
| `FetchRepo.BlobPathsMembers` | src/lib/tools/fetchRepo.ts:27-29 | a path is listed exactly when some blob entry has it, with "" for a blob without a path |
| `FetchRepo.BlobPathsAppend` | src/lib/tools/fetchRepo.ts:27-29 | the listing keeps tree order: the blobs of a split tree are those of each part in turn |
| `FetchRepo.KeyFileContentsMembers` | src/lib/tools/fetchRepo.ts:32-55 | a name is in the key-file map exactly when it is one of the eleven key files, is listed, and came back non-empty; its value is that text |
| `FetchRepo.CollectKeyFiles` | src/lib/tools/fetchRepo.ts:46-55 | the loop builds exactly the reference key-file map |
| `FetchRepo.DeriveMissing` | src/lib/tools/fetchRepo.ts:58-68 | .gitignore is missing exactly when the exact path is absent; README and CONTRIBUTING exactly when no path lower-cases to "readme.md" or "contributing.md"; LICENSE exactly when no lower-cased path starts with "license" |
| `FetchRepo.FetchRepoExecute` | src/lib/tools/fetchRepo.ts:13-193 | the result is the reference fetch; a rejected URL gives "Invalid GitHub URL"; fileCount is the number of files, and the inlined scoring yields the health scorer's report |
| `FetchRepo.FetchRepoOutcome` | src/lib/tools/fetchRepo.ts:13-193 | an error exactly when the URL does not parse or a request threw, with the thrown message or "Failed to fetch repository"; otherwise the parsed owner and repo, the blob paths, the key-file map of listed non-empty key files, the derived flags, and the health report |
| `FetchRepo.MixedCaseReadmeNeverShort` | src/lib/tools/fetchRepo.ts:33-97 | a root "Readme.md" counts as present but is never read, so neither README issue is reported |
| `SummarizeRepo.EntryPointPatternsDistinct` | src/lib/tools/summarizeRepo.ts:34-48 | no row of the entry-point table repeats a path, and none is longer than seven |
| `SummarizeRepo.LowerAll` | src/lib/tools/summarizeRepo.ts:112 | a name is in the lowered list exactly when it is the lower case of a dependency name |
| `SummarizeRepo.DetectProjectType` | src/lib/tools/summarizeRepo.ts:97-178 | never 'cli'; 'nextjs' exactly when 'next' is a dependency or a root next.config.js/.ts/.mjs exists, whatever else holds |
| `SummarizeRepo.FirstRule` | src/lib/tools/summarizeRepo.ts:114-177 | the type returned is Unknown or one whose rule holds |
| `SummarizeRepo.FirstRuleIsFirstMatch` | src/lib/tools/summarizeRepo.ts:114-177 | a returned type is the earliest in detection order whose rule holds, every rule before it fails, and Unknown comes back exactly when no rule holds |
| `SummarizeRepo.FirstRuleFromNextJs` | src/lib/tools/summarizeRepo.ts:114-123 | the next, react-native and react rules are tried in that order |
| `SummarizeRepo.FirstRuleFromVue` | src/lib/tools/summarizeRepo.ts:125-133 | the vue and express rules are tried in that order |
| `SummarizeRepo.FirstRuleFromFastApi` | src/lib/tools/summarizeRepo.ts:135-143 | fastapi, flask and django are tried in that order |
| `SummarizeRepo.FirstRuleFromGo` | src/lib/tools/summarizeRepo.ts:145-153 | the go and rust rules are tried in that order |
| `SummarizeRepo.FirstRuleFromPython` | src/lib/tools/summarizeRepo.ts:155-177 | the python and library rules are tried in that order, then unknown |
| `SummarizeRepo.DetectIsFirstMatch` | src/lib/tools/summarizeRepo.ts:114-177 | the detector equals the first-match table over nextjs, reactNative, react, vue, express, fastapi, flask, django, go, rust, python, library |
| `SummarizeRepo.ReactNativeNeedsReact` | src/lib/tools/summarizeRepo.ts:119-123 | reactNative exactly when react or react-dom and react-native are dependencies and next is not signalled; react exactly when react-native is absent |
| `SummarizeRepo.PythonFrameworkFromPackageJsonText` | src/lib/tools/summarizeRepo.ts:135-143 | fastapi, flask and django need requirements.txt, language python and a non-empty package.json text, and are matched in that precedence as substrings of that text |
| `SummarizeRepo.UnparsedPackageJsonHasNoDeps` | src/lib/tools/summarizeRepo.ts:102-112 | a package.json that does not parse is classified like one without dependencies |
| `SummarizeRepo.EntryPointsSpec` | src/lib/tools/summarizeRepo.ts:184-195 | the entry points are exactly the table entries that are listed, in table order, without duplicates, at most seven, and none for 'unknown' |
| `SummarizeRepo.KeepListed` | src/lib/tools/summarizeRepo.ts:186-194 | the loop pushes exactly the listed patterns, in order |
| `SummarizeRepo.FindEntryPoints` | src/lib/tools/summarizeRepo.ts:184-195 | returns the reference entry points |
| `SummarizeRepo.CoreMatches` | src/lib/tools/summarizeRepo.ts:227-238 | the first three qualifying files of one prefix (those of some prefix of the listing, in files order): not yet selected and not skipped; fewer only when no more qualify |
| `SummarizeRepo.TopLevelMatches` | src/lib/tools/summarizeRepo.ts:246-253 | the first `room` qualifying tier-3 files (those of some prefix of the listing, in files order), not yet selected; fewer only when no more qualify |
| `SummarizeRepo.SelectFiles` | src/lib/tools/summarizeRepo.ts:197-260 | at most 25 files |
| `SummarizeRepo.Tier2Stops` | src/lib/tools/summarizeRepo.ts:242 | once 25 are selected after a prefix, later prefixes add nothing |
| `SummarizeRepo.AddCoreFiles` | src/lib/tools/summarizeRepo.ts:226-243 | the tier-2 loop with its break yields the reference tier-2 selection |
| `SummarizeRepo.SelectFilesToRead` | src/lib/tools/summarizeRepo.ts:197-260 | the method returns the reference selection |
| `SummarizeRepo.Tier2Extends` | src/lib/tools/summarizeRepo.ts:227-243 | tier 2 only appends to the entry points |
| `SummarizeRepo.Tier2Admitted` | src/lib/tools/summarizeRepo.ts:227-243 | every tier-2 path is listed, starts with a core prefix and is not skipped |
| `SummarizeRepo.Tier2Bound` | src/lib/tools/summarizeRepo.ts:240-242 | the limit is checked after each prefix, so tier 2 overshoots 25 by at most two |
| `SummarizeRepo.Tier2NoDuplicates` | src/lib/tools/summarizeRepo.ts:228-240 | tier 2 adds only unselected paths, so it keeps the list free of duplicates |
| `SummarizeRepo.SelectFilesParts` | src/lib/tools/summarizeRepo.ts:245-259 | tier 3 is appended only when fewer than 25 are selected; otherwise the list is cut to 25 |
| `SummarizeRepo.SelectedFromFiles` | src/lib/tools/summarizeRepo.ts:202-259 | no path is made up: each selected path is listed and is an entry point, an admitted tier-2 path or passes the tier-3 test |
| `SummarizeRepo.SelectedNoDuplicates` | src/lib/tools/summarizeRepo.ts:202-259 | without duplicates in files, none in the selection |
| `SummarizeRepo.TiersInOrder` | src/lib/tools/summarizeRepo.ts:205-259 | the entry points come first, then tier 2, then tier 3 |
| `SummarizeRepo.BeforeTopLevelBound` | src/lib/tools/summarizeRepo.ts:227-243 | before the final cut there are fewer than 28 paths |
| `SummarizeRepo.TopLevelSelectedUnlessFull` | src/lib/tools/summarizeRepo.ts:246-256 | unless the selection is full, every path passing the tier-3 test is selected |
| `SummarizeRepo.NestedScriptIsTopLevel` | src/lib/tools/summarizeRepo.ts:250 | by the precedence as written, '.js' and '.tsx' files at any depth pass tier 3 |
| `SummarizeRepo.NestedTypeScriptIsNot` | src/lib/tools/summarizeRepo.ts:249-250 | a nested '.ts' file passes tier 3 only as a direct child of src/ |
| `SummarizeRepo.Truncated` | src/lib/tools/summarizeRepo.ts:292-294 | a text of at most 10000 characters is kept; a longer one keeps its first 10000 and gets the note appended |
| `SummarizeRepo.TruncatedIdempotent` | src/lib/tools/summarizeRepo.ts:292-294 | truncating twice is truncating once |
| `SummarizeRepo.SourceContentsSpec` | src/lib/tools/summarizeRepo.ts:284-300 | a path is stored exactly when chosen and read non-empty, its text truncated, and no more are stored than were chosen |
| `SummarizeRepo.ReadSourceFiles` | src/lib/tools/summarizeRepo.ts:287-300 | the read loop stores the reference contents |
| `SummarizeRepo.PrepareSummary` | src/lib/tools/summarizeRepo.ts:274-300 | detect from the stored package.json text, select, read; at most 25 files are stored |
| `Prompts.FetchRepoPrompt` | src/lib/prompts.ts:106-113 | the prompt starts with the fixed opening, and the URL follows it verbatim |
| `Prompts.FetchRepoPromptInjective` | src/lib/prompts.ts:106 | different URLs give different prompts |
| `Prompts.ActionSentence` | src/lib/prompts.ts:118-126 | every sentence is one line |
| `Prompts.ActionSentences` | src/lib/prompts.ts:117-127 | no more sentences than actions, each non-empty and one line |
| `Prompts.ActionSentencesSingle` | src/lib/prompts.ts:119-127 | one action gives its sentence exactly when it is readme, gitignore, license, contributing or api-docs |
| `Prompts.ActionSentencesAppend` | src/lib/prompts.ts:118-127 | sentences follow the actions: order and repetitions are kept |
| `Prompts.ReportActionIdsDropped` | src/lib/prompts.ts:119-127 | the scorer's action ids (generateReadme and so on) give no sentence |
| `Prompts.GenerateFilesPrompt` | src/lib/prompts.ts:129 | the prompt starts with the header line |
| `Prompts.GenerateFilesPromptLines` | src/lib/prompts.ts:117-130 | one line per recognised key after the header; with none, the header and a single newline |
| `Gitignore.DetectStack` | src/lib/tools/generateGitignore.ts:16-35 | with package.json the manager is npm and the framework one of Next.js, Vite, Angular, Vue, Node.js; framework is 'unknown' exactly when the manager is |
| `Gitignore.DetectStackPrecedence` | src/lib/tools/generateGitignore.ts:16-35 | package.json wins; then requirements.txt or setup.py, Cargo.toml, go.mod in turn; with none both stay 'unknown' |
| `Gitignore.NodeFrameworkOrder` | src/lib/tools/generateGitignore.ts:19-25 | within a Node project the first signal names the framework: next.config, vite.config, angular.json, vue.config.js, otherwise Node.js |
| `Gitignore.FillInTurn` | src/lib/tools/generateGitignore.ts:37-41 | four first-occurrence replacements on a template whose fixed pieces hold no '{' put each value in its own place |
| `Gitignore.GitignorePromptFilled` | src/lib/tools/generateGitignore.ts:37-41 | the prompt is the template with the language (or 'Unknown'), framework, manager and first 30 paths joined by ', ' in place |
| `Gitignore.GenerateGitignore` | src/lib/tools/generateGitignore.ts:43-61 | success exactly when the model yields text: '.gitignore', that text, and the detected framework; otherwise the thrown message or 'Failed to generate .gitignore' |
| `ApiDocs.Extension` | src/lib/tools/generateApiDocs.ts:21 | without '.' the whole path; otherwise a suffix starting at a '.' with no later '.' |
| `ApiDocs.ExtensionTestIsSuffixTest` | src/lib/tools/generateApiDocs.ts:19-22 | the extension is listed exactly when the path ends with a listed extension; a path without '.' never qualifies |
| `ApiDocs.DeclarationFilesSkipped` | src/lib/tools/generateApiDocs.ts:23-26 | a path ending in '.d.ts' is never a code file |
| `ApiDocs.CodeFiles` | src/lib/tools/generateApiDocs.ts:20-27 | the first 10 code files (the qualifying files of some prefix of the listing, in files order); fewer only when no more qualify |
| `ApiDocs.Section` | src/lib/tools/generateApiDocs.ts:34 | a section is the path header followed by a prefix of the file: all of it when it has at most 2000 characters, else exactly its first 2000 |
| `ApiDocs.CodeContentsSpec` | src/lib/tools/generateApiDocs.ts:30-36 | at most one section per chosen file, each the section of a chosen file that came back non-empty; none exactly when no chosen file did |
| `ApiDocs.GatherCode` | src/lib/tools/generateApiDocs.ts:30-36 | the loop pushes the reference sections |
| `ApiDocs.ApiDocsPromptFilled` | src/lib/tools/generateApiDocs.ts:45 | the sections, joined by newlines, stand in place of the placeholder, whatever they contain |
| `ApiDocs.AttemptsOutcome` | src/lib/tools/generateApiDocs.ts:48-74 | at most two attempts: the first text wins, otherwise the second attempt's error; 'Max retries exceeded' is never returned |
| `ApiDocs.Retry` | src/lib/tools/generateApiDocs.ts:48-74 | the counted loop returns the reference retry outcome |
| `ApiDocs.GenerateApiDocsExecute` | src/lib/tools/generateApiDocs.ts:13-75 | the result is the reference outcome; on success the file is 'API_DOCS.md' and the documented files are the chosen ones |
| `ApiDocs.NothingReadNothingGenerated` | src/lib/tools/generateApiDocs.ts:38-43 | when no chosen file yields text the result is 'No code files found to document', whatever the model would answer |

## Left out

- The GitHub calls: repository metadata, the tree with its main-to-master fallback, base64 decoding, and issue creation. They are Octokit calls. Their outcomes are parameters (`remote`, `fileContent`).
- The language model calls, the one-second delay between retries, async/await, and console logging. The model's answer is the `generate` parameter.
- JSON parsing of package.json. Its result, the two key lists or `None`, is the `parsedDeps` parameter.
- `String.replace` interprets '$' sequences in the replacement text. The model treats every replacement as literal text.
- `toLowerCase` is modelled on ASCII letters only.
- The emoji issue strings and the action ids are modelled as the enumerations `Health.Issue` and `Health.Action`. `Health.Message` and `Health.ActionId` give their texts.
- The prompt assembly and model call of `summarizeRepoExecute` (after the files are read). They depend on object key order and on the model's structured output. `PrepareSummary` models steps 1 to 3.
- The `keyFilesContent` parameter of `selectFilesToRead` is never read, so the model omits it.
- The README, CONTRIBUTING and GitHub-issue tools, the agent's tool registry, the route handlers and the user interface are not part of this model.
- The metadata object that `fetchRepoExecute` returns is carried through unchanged as `RepoInfo`. Nothing is proved about its fields.
- `SummarizeRepo.PrepareSummary`: a `null` answer and a thrown request are both `None`. The source skips both in the same way.
- `Gitignore.GitignorePromptFilled`: stated only for language texts without '{'. A language text that contains a later placeholder would have that placeholder replaced instead, as the chained `.replace` calls do.
- `GitHub.ParseEmbedded`: states the unanchored match only for prefixes without a 'g'. A prefix containing an earlier "github.com/" match parses from that earlier match, as `GitHub.ParseGitHubUrl` states in general.
- `Health.ShortReadmeIff`: the 500 limit counts Unicode characters. JavaScript's `length` counts UTF-16 code units, so the two agree only for text without characters outside the Basic Multilingual Plane.
- `Health.Assess`: reports the short-README issue by the same character count as `Health.ShortReadmeIff`, so it agrees with the source only for README text without characters outside the Basic Multilingual Plane.
- `SummarizeRepo.Truncated`: the 10000 limit and the cut count Unicode characters, not UTF-16 code units. A cut that would split a surrogate pair cannot be represented.
- `ApiDocs.Section`: the 2000 limit counts Unicode characters, not UTF-16 code units, with the same consequence for surrogate pairs.
