/**
 * The deterministic part of src/lib/tools/summarizeRepo.ts: the project-type detector,
 * the entry-point table, the three-tier choice of source files to read, and the read
 * loop with its 10000-character cut.
 *
 * JSON parsing is not modelled: `parsedDeps` is what parsing the package.json text
 * gives (the key lists of `dependencies` and `devDependencies`), or None when
 * `JSON.parse` throws. `fileContent` stands for the contents request of a path, None
 * when it returned null or threw.
 */
module SummarizeRepo {
  import opened Wrappers
  import opened Strings
  import opened Seqs

  datatype ProjectType =
    | NextJs | React | Vue | Express | Django | Flask | FastApi | Cli | Library
    | ReactNative | Go | Rust | Python | Unknown

  /** The key lists of a parsed package.json. */
  datatype PackageDeps = PackageDeps(dependencies: seq<string>, devDependencies: seq<string>)

  /** `ENTRY_POINT_PATTERNS[projectType] || []`: there is no row for 'unknown'. */
  function EntryPointPatterns(t: ProjectType): seq<string> {
    match t
    case NextJs => ["src/app/page.tsx", "src/app/page.js", "src/pages/index.tsx", "src/pages/index.js",
                    "pages/index.tsx", "pages/index.js", "app/page.tsx"]
    case React => ["src/App.tsx", "src/App.jsx", "src/index.tsx", "src/index.jsx", "src/main.tsx", "src/main.jsx"]
    case Vue => ["src/App.vue", "src/main.ts", "src/main.js"]
    case Express => ["src/server.ts", "src/app.ts", "server.js", "app.js", "src/index.ts", "index.js"]
    case Django => ["manage.py", "settings.py", "urls.py", "wsgi.py"]
    case Flask => ["app.py", "main.py", "application.py", "wsgi.py"]
    case FastApi => ["main.py", "app/main.py", "src/main.py"]
    case Cli => ["src/cli.ts", "src/index.ts", "bin/cli.js", "cli.js"]
    case Library => ["src/index.ts", "lib/index.js", "index.ts", "src/lib.rs"]
    case ReactNative => ["App.tsx", "App.js", "index.js", "app/index.tsx"]
    case Go => ["main.go", "cmd/main.go", "cmd/server/main.go"]
    case Rust => ["src/main.rs", "src/lib.rs"]
    case Python => ["__main__.py", "main.py", "setup.py", "app.py"]
    case Unknown => []
  }

  /** No row of the table names a path twice, and no row is longer than seven. */
  lemma EntryPointPatternsDistinct(t: ProjectType)
    ensures NoDuplicates(EntryPointPatterns(t)) && |EntryPointPatterns(t)| <= 7
  {
  }

  // ---------------------------------------------------------------------------
  // Project-type detection
  // ---------------------------------------------------------------------------

  /** `s.map(d => d.toLowerCase())` */
  function LowerAll(names: seq<string>): (r: seq<string>)
    ensures |r| == |names|
    ensures forall d :: d in r <==> exists n :: n in names && ToLower(n) == d
  {
    if names == [] then [] else [ToLower(names[0])] + LowerAll(names[1..])
  }

  /**
   * `allDeps`: the lower-cased dependency and devDependency names, empty when the
   * package.json text is absent or empty or does not parse.
   */
  function AllDeps(packageJson: Option<string>, parsedDeps: Option<PackageDeps>): seq<string> {
    if Truthy(packageJson) && parsedDeps.Some? then
      LowerAll(parsedDeps.value.dependencies + parsedDeps.value.devDependencies)
    else []
  }

  /** `language?.toLowerCase() === name` */
  predicate LanguageIs(language: Option<string>, name: string) {
    language.Some? && ToLower(language.value) == name
  }

  predicate NextSignal(files: seq<string>, deps: seq<string>) {
    "next" in deps || "next.config.js" in files || "next.config.ts" in files || "next.config.mjs" in files
  }

  predicate ReactSignal(deps: seq<string>) {
    "react" in deps || "react-dom" in deps
  }

  /**
   * The Python framework check: only with requirements.txt listed and the language
   * python, and it searches the package.json text (not requirements.txt) for the names.
   */
  predicate PythonFrameworkContext(files: seq<string>, packageJson: Option<string>, language: Option<string>) {
    "requirements.txt" in files && LanguageIs(language, "python") && Truthy(packageJson)
  }

  predicate IndexFile(f: string) {
    f == "src/index.ts" || f == "src/index.js" || f == "lib/index.js" || f == "index.ts"
  }

  predicate AppFile(f: string) {
    Contains(f, "app.") || Contains(f, "server.") || Contains(f, "main.")
  }

  predicate LibrarySignal(files: seq<string>) {
    (exists f :: f in files && IndexFile(f)) && !(exists f :: f in files && AppFile(f))
  }

  /** `detectProjectType(files, packageJson, language)` */
  function DetectProjectType(files: seq<string>, packageJson: Option<string>, parsedDeps: Option<PackageDeps>,
                             language: Option<string>): (t: ProjectType)
    ensures t != Cli
    ensures t == NextJs <==> NextSignal(files, AllDeps(packageJson, parsedDeps))
  {
    var deps := AllDeps(packageJson, parsedDeps);
    if NextSignal(files, deps) then NextJs
    else if ReactSignal(deps) then (if "react-native" in deps then ReactNative else React)
    else if "vue" in deps then Vue
    else if "express" in deps then Express
    else if PythonFrameworkContext(files, packageJson, language) && Contains(ToLower(packageJson.value), "fastapi") then FastApi
    else if PythonFrameworkContext(files, packageJson, language) && Contains(ToLower(packageJson.value), "flask") then Flask
    else if PythonFrameworkContext(files, packageJson, language) && Contains(ToLower(packageJson.value), "django") then Django
    else if "go.mod" in files || LanguageIs(language, "go") then Go
    else if "Cargo.toml" in files || LanguageIs(language, "rust") then Rust
    else if LanguageIs(language, "python") then Python
    else if LibrarySignal(files) then Library
    else Unknown
  }

  /** The order in which the detector tries the project types. */
  const DetectionOrder: seq<ProjectType> :=
    [NextJs, ReactNative, React, Vue, Express, FastApi, Flask, Django, Go, Rust, Python, Library]

  /** What the rule for each type tests, on its own. */
  predicate Rule(t: ProjectType, files: seq<string>, packageJson: Option<string>, parsedDeps: Option<PackageDeps>,
                 language: Option<string>)
  {
    var deps := AllDeps(packageJson, parsedDeps);
    match t
    case NextJs => NextSignal(files, deps)
    case ReactNative => ReactSignal(deps) && "react-native" in deps
    case React => ReactSignal(deps)
    case Vue => "vue" in deps
    case Express => "express" in deps
    case FastApi => PythonFrameworkContext(files, packageJson, language) && Contains(ToLower(packageJson.value), "fastapi")
    case Flask => PythonFrameworkContext(files, packageJson, language) && Contains(ToLower(packageJson.value), "flask")
    case Django => PythonFrameworkContext(files, packageJson, language) && Contains(ToLower(packageJson.value), "django")
    case Go => "go.mod" in files || LanguageIs(language, "go")
    case Rust => "Cargo.toml" in files || LanguageIs(language, "rust")
    case Python => LanguageIs(language, "python")
    case Library => LibrarySignal(files)
    case Cli => false
    case Unknown => true
  }

  /** The rules as one test on types. */
  function RuleOf(files: seq<string>, packageJson: Option<string>, parsedDeps: Option<PackageDeps>,
                  language: Option<string>): ProjectType -> bool
  {
    t => Rule(t, files, packageJson, parsedDeps, language)
  }

  /** The first type, from the k-th of `DetectionOrder` on, whose rule holds; Unknown when none does. */
  function FirstRule(k: nat, files: seq<string>, packageJson: Option<string>, parsedDeps: Option<PackageDeps>,
                     language: Option<string>): (t: ProjectType)
    requires k <= |DetectionOrder|
    ensures t == Unknown || Rule(t, files, packageJson, parsedDeps, language)
  {
    FindFromIsFirst(DetectionOrder, RuleOf(files, packageJson, parsedDeps, language), k, Unknown);
    FindFrom(DetectionOrder, RuleOf(files, packageJson, parsedDeps, language), k, Unknown)
  }

  /**
   * `FirstRule` is a first match: a type it returns is the earliest one in `DetectionOrder`,
   * from the k-th on, whose rule holds, and it returns Unknown exactly when no rule from
   * the k-th on holds.
   */
  lemma FirstRuleIsFirstMatch(k: nat, files: seq<string>, packageJson: Option<string>,
                              parsedDeps: Option<PackageDeps>, language: Option<string>)
    requires k <= |DetectionOrder|
    ensures var t := FirstRule(k, files, packageJson, parsedDeps, language);
      && (t != Unknown ==>
            exists i :: k <= i < |DetectionOrder| && DetectionOrder[i] == t
              && Rule(t, files, packageJson, parsedDeps, language)
              && forall j :: k <= j < i ==> !Rule(DetectionOrder[j], files, packageJson, parsedDeps, language))
      && (t == Unknown <==>
            forall j :: k <= j < |DetectionOrder| ==> !Rule(DetectionOrder[j], files, packageJson, parsedDeps, language))
  {
    assert Unknown !in DetectionOrder;
    FindFromIsFirst(DetectionOrder, RuleOf(files, packageJson, parsedDeps, language), k, Unknown);
  }

  /** The python and library rules, tried in turn. */
  lemma FirstRuleFromPython(files: seq<string>, packageJson: Option<string>, parsedDeps: Option<PackageDeps>,
                            language: Option<string>)
    ensures FirstRule(10, files, packageJson, parsedDeps, language)
         == if LanguageIs(language, "python") then Python
            else if LibrarySignal(files) then Library
            else Unknown
  {
    assert FirstRule(12, files, packageJson, parsedDeps, language) == Unknown;
    assert FirstRule(11, files, packageJson, parsedDeps, language) == if LibrarySignal(files) then Library else Unknown;
  }

  /** The go and rust rules, tried in turn. */
  lemma FirstRuleFromGo(files: seq<string>, packageJson: Option<string>, parsedDeps: Option<PackageDeps>,
                        language: Option<string>)
    ensures FirstRule(8, files, packageJson, parsedDeps, language)
         == if "go.mod" in files || LanguageIs(language, "go") then Go
            else if "Cargo.toml" in files || LanguageIs(language, "rust") then Rust
            else FirstRule(10, files, packageJson, parsedDeps, language)
  {
    assert FirstRule(9, files, packageJson, parsedDeps, language)
        == if "Cargo.toml" in files || LanguageIs(language, "rust") then Rust
           else FirstRule(10, files, packageJson, parsedDeps, language);
  }

  /** The three Python framework rules, tried in turn. */
  lemma FirstRuleFromFastApi(files: seq<string>, packageJson: Option<string>, parsedDeps: Option<PackageDeps>,
                             language: Option<string>)
    ensures var ctx := PythonFrameworkContext(files, packageJson, language);
      FirstRule(5, files, packageJson, parsedDeps, language)
         == if ctx && Contains(ToLower(packageJson.value), "fastapi") then FastApi
            else if ctx && Contains(ToLower(packageJson.value), "flask") then Flask
            else if ctx && Contains(ToLower(packageJson.value), "django") then Django
            else FirstRule(8, files, packageJson, parsedDeps, language)
  {
    var ctx := PythonFrameworkContext(files, packageJson, language);
    assert FirstRule(7, files, packageJson, parsedDeps, language)
        == if ctx && Contains(ToLower(packageJson.value), "django") then Django
           else FirstRule(8, files, packageJson, parsedDeps, language);
    assert FirstRule(6, files, packageJson, parsedDeps, language)
        == if ctx && Contains(ToLower(packageJson.value), "flask") then Flask
           else FirstRule(7, files, packageJson, parsedDeps, language);
  }

  /** The vue and express rules, tried in turn. */
  lemma FirstRuleFromVue(files: seq<string>, packageJson: Option<string>, parsedDeps: Option<PackageDeps>,
                         language: Option<string>)
    ensures var deps := AllDeps(packageJson, parsedDeps);
      FirstRule(3, files, packageJson, parsedDeps, language)
         == if "vue" in deps then Vue
            else if "express" in deps then Express
            else FirstRule(5, files, packageJson, parsedDeps, language)
  {
    var deps := AllDeps(packageJson, parsedDeps);
    assert FirstRule(4, files, packageJson, parsedDeps, language)
        == if "express" in deps then Express else FirstRule(5, files, packageJson, parsedDeps, language);
  }

  /** The Next.js and React rules, tried in turn. */
  lemma FirstRuleFromNextJs(files: seq<string>, packageJson: Option<string>, parsedDeps: Option<PackageDeps>,
                            language: Option<string>)
    ensures var deps := AllDeps(packageJson, parsedDeps);
      FirstRule(0, files, packageJson, parsedDeps, language)
         == if NextSignal(files, deps) then NextJs
            else if ReactSignal(deps) && "react-native" in deps then ReactNative
            else if ReactSignal(deps) then React
            else FirstRule(3, files, packageJson, parsedDeps, language)
  {
    var deps := AllDeps(packageJson, parsedDeps);
    assert FirstRule(2, files, packageJson, parsedDeps, language)
        == if ReactSignal(deps) then React else FirstRule(3, files, packageJson, parsedDeps, language);
    assert FirstRule(1, files, packageJson, parsedDeps, language)
        == if ReactSignal(deps) && "react-native" in deps then ReactNative
           else FirstRule(2, files, packageJson, parsedDeps, language);
  }

  /** The detector is a first-match decision table over `DetectionOrder`. */
  lemma DetectIsFirstMatch(files: seq<string>, packageJson: Option<string>, parsedDeps: Option<PackageDeps>,
                           language: Option<string>)
    ensures DetectProjectType(files, packageJson, parsedDeps, language)
         == FirstRule(0, files, packageJson, parsedDeps, language)
  {
    FirstRuleFromNextJs(files, packageJson, parsedDeps, language);
    FirstRuleFromVue(files, packageJson, parsedDeps, language);
    FirstRuleFromFastApi(files, packageJson, parsedDeps, language);
    FirstRuleFromGo(files, packageJson, parsedDeps, language);
    FirstRuleFromPython(files, packageJson, parsedDeps, language);
  }

  /**
   * reactNative needs react or react-dom as well: a project depending on 'react-native'
   * alone is classified neither as React nor as React Native.
   */
  lemma ReactNativeNeedsReact(files: seq<string>, packageJson: Option<string>, parsedDeps: Option<PackageDeps>,
                              language: Option<string>)
    ensures var t := DetectProjectType(files, packageJson, parsedDeps, language);
      var deps := AllDeps(packageJson, parsedDeps);
      && (t == ReactNative <==> !NextSignal(files, deps) && ReactSignal(deps) && "react-native" in deps)
      && (t == React <==> !NextSignal(files, deps) && ReactSignal(deps) && "react-native" !in deps)
  {
  }

  /**
   * fastapi, flask and django are found only with requirements.txt listed, the language
   * python and a non-empty package.json text, by searching that text, in that precedence.
   */
  lemma PythonFrameworkFromPackageJsonText(files: seq<string>, packageJson: Option<string>,
                                           parsedDeps: Option<PackageDeps>, language: Option<string>)
    ensures var t := DetectProjectType(files, packageJson, parsedDeps, language);
      && (t == FastApi || t == Flask || t == Django ==> PythonFrameworkContext(files, packageJson, language))
      && (t == FastApi ==> Contains(ToLower(packageJson.value), "fastapi"))
      && (t == Flask ==> !Contains(ToLower(packageJson.value), "fastapi") && Contains(ToLower(packageJson.value), "flask"))
      && (t == Django ==> !Contains(ToLower(packageJson.value), "fastapi") && !Contains(ToLower(packageJson.value), "flask")
                          && Contains(ToLower(packageJson.value), "django"))
  {
    var deps := AllDeps(packageJson, parsedDeps);
    if !NextSignal(files, deps) && !ReactSignal(deps) && "vue" !in deps && "express" !in deps {
      assert DetectProjectType(files, packageJson, parsedDeps, language)
          == if PythonFrameworkContext(files, packageJson, language) && Contains(ToLower(packageJson.value), "fastapi") then FastApi
             else if PythonFrameworkContext(files, packageJson, language) && Contains(ToLower(packageJson.value), "flask") then Flask
             else if PythonFrameworkContext(files, packageJson, language) && Contains(ToLower(packageJson.value), "django") then Django
             else DetectProjectType(files, packageJson, parsedDeps, language);
    }
  }

  /** A package.json that does not parse is treated as one with no dependencies. */
  lemma UnparsedPackageJsonHasNoDeps(files: seq<string>, packageJson: Option<string>, language: Option<string>)
    ensures DetectProjectType(files, packageJson, None, language)
         == DetectProjectType(files, packageJson, Some(PackageDeps([], [])), language)
  {
    assert LowerAll([] + []) == [];
  }

  // ---------------------------------------------------------------------------
  // Entry points
  // ---------------------------------------------------------------------------

  /** `p => files.includes(p)` */
  function InFiles(files: seq<string>): string -> bool {
    p => p in files
  }

  /** What `findEntryPoints(files, projectType)` returns: the table row kept where listed in files. */
  function EntryPoints(files: seq<string>, t: ProjectType): seq<string> {
    Filter(EntryPointPatterns(t), InFiles(files))
  }

  /**
   * The entry points are exactly the table entries of the type that occur in files, in
   * table order, each once; there are none for an unknown type.
   */
  lemma EntryPointsSpec(files: seq<string>, t: ProjectType)
    ensures var r := EntryPoints(files, t);
      && (forall p :: p in r <==> p in EntryPointPatterns(t) && p in files)
      && IsSubsequence(r, EntryPointPatterns(t))
      && NoDuplicates(r)
      && |r| <= 7
      && (t == Unknown ==> r == [])
  {
    EntryPointPatternsDistinct(t);
    FilterSubsequence(EntryPointPatterns(t), InFiles(files));
    FilterNoDuplicates(EntryPointPatterns(t), InFiles(files));
  }

  /** The loop of `findEntryPoints`: each pattern is pushed when files includes it. */
  method KeepListed(patterns: seq<string>, files: seq<string>) returns (entryPoints: seq<string>)
    ensures entryPoints == Filter(patterns, InFiles(files))
  {
    entryPoints := [];
    for j := 0 to |patterns|
      invariant entryPoints == Filter(patterns[..j], InFiles(files))
    {
      FilterAppend(patterns[..j], [patterns[j]], InFiles(files));
      assert patterns[..j + 1] == patterns[..j] + [patterns[j]];
      assert [patterns[j]][1..] == [];
      if patterns[j] in files {
        entryPoints := entryPoints + [patterns[j]];
      }
    }
    assert patterns[..|patterns|] == patterns;
  }

  /** `findEntryPoints(files, projectType)` */
  method FindEntryPoints(files: seq<string>, t: ProjectType) returns (entryPoints: seq<string>)
    ensures entryPoints == EntryPoints(files, t)
  {
    entryPoints := KeepListed(EntryPointPatterns(t), files);
  }

  // ---------------------------------------------------------------------------
  // Choosing the files to read
  // ---------------------------------------------------------------------------

  const MaxFiles: nat := 25

  /** At most this many files per core prefix. */
  const PerPrefix: nat := 3

  /** The core directories (and one file name), in priority order. */
  const CorePatterns: seq<string> := [
    "src/lib/", "src/core/", "lib/", "core/", "src/app/api/", "src/pages/api/", "api/", "routes/",
    "controllers/", "models/", "schema.prisma", "src/components/", "components/"
  ]

  /** Test files, style files and JSON are skipped in tier 2. */
  predicate Skipped(f: string) {
    Contains(f, ".test.") || Contains(f, ".spec.") || EndsWith(f, ".css") || EndsWith(f, ".scss") || EndsWith(f, ".json")
  }

  function CoreTest(selected: seq<string>, pattern: string): string -> bool {
    f => StartsWith(f, pattern) && f !in selected && !Skipped(f)
  }

  /**
   * Tier 2 for one prefix: the first three paths, in files order, that start with the
   * prefix, are not selected yet and are not skipped. Fewer than three are taken only
   * when there are no more.
   */
  function CoreMatches(files: seq<string>, selected: seq<string>, pattern: string): (r: seq<string>)
    ensures |r| <= PerPrefix
    ensures forall f :: f in r ==> f in files && StartsWith(f, pattern) && f !in selected && !Skipped(f)
    ensures |r| < PerPrefix ==>
      forall f :: f in files && StartsWith(f, pattern) && f !in selected && !Skipped(f) ==> f in r
    ensures IsSubsequence(r, files)
    ensures NoDuplicates(files) ==> NoDuplicates(r)
    ensures exists n :: 0 <= n <= |files| && r == Filter(files[..n], CoreTest(selected, pattern))
  {
    TakeFilter(files, CoreTest(selected, pattern), PerPrefix);
    Take(Filter(files, CoreTest(selected, pattern)), PerPrefix)
  }

  /**
   * The tier-3 test as written. `&&` binds tighter than `||`, so besides direct children
   * of src/ (one '/', which is `split('/').length === 2`) and root '.ts' files it admits
   * every path ending in '.js' or '.tsx', at any depth.
   */
  predicate TopLevelSource(f: string) {
    (StartsWith(f, "src/") && Count(f, '/') == 1) || ('/' !in f && EndsWith(f, ".ts")) || EndsWith(f, ".js") || EndsWith(f, ".tsx")
  }

  function TopLevelTest(selected: seq<string>): string -> bool {
    f => TopLevelSource(f) && f !in selected
  }

  /** Tier 3: the first `room` paths, in files order, that pass the tier-3 test and are not selected yet. */
  function TopLevelMatches(files: seq<string>, selected: seq<string>, room: nat): (r: seq<string>)
    ensures |r| <= room
    ensures forall f :: f in r ==> f in files && TopLevelSource(f) && f !in selected
    ensures |r| < room ==> forall f :: f in files && TopLevelSource(f) && f !in selected ==> f in r
    ensures IsSubsequence(r, files)
    ensures NoDuplicates(files) ==> NoDuplicates(r)
    ensures exists n :: 0 <= n <= |files| && r == Filter(files[..n], TopLevelTest(selected))
  {
    TakeFilter(files, TopLevelTest(selected), room);
    Take(Filter(files, TopLevelTest(selected)), room)
  }

  /**
   * The selection after the first k core prefixes. The limit is checked only after a
   * prefix's files are pushed, so the first prefix is always tried.
   */
  function Tier2After(files: seq<string>, entryPoints: seq<string>, k: nat): seq<string>
    requires k <= |CorePatterns|
  {
    if k == 0 then entryPoints
    else
      var prev := Tier2After(files, entryPoints, k - 1);
      if k > 1 && |prev| >= MaxFiles then prev
      else prev + CoreMatches(files, prev, CorePatterns[k - 1])
  }

  /** Entry points and tier 2: the selection before tier 3 is considered. */
  function BeforeTopLevel(files: seq<string>, t: ProjectType): seq<string> {
    Tier2After(files, EntryPoints(files, t), |CorePatterns|)
  }

  /** What `selectFilesToRead(files, projectType, keyFilesContent)` returns. */
  function SelectFiles(files: seq<string>, t: ProjectType): (r: seq<string>)
    ensures |r| <= MaxFiles
  {
    var before := BeforeTopLevel(files, t);
    var all := if |before| < MaxFiles then before + TopLevelMatches(files, before, MaxFiles - |before|) else before;
    Take(all, MaxFiles)
  }

  /** Once the limit is reached after some prefix, the later prefixes add nothing. */
  lemma {:induction false} Tier2Stops(files: seq<string>, entryPoints: seq<string>, k: nat, m: nat)
    requires 1 <= k <= m <= |CorePatterns|
    requires |Tier2After(files, entryPoints, k)| >= MaxFiles
    ensures Tier2After(files, entryPoints, m) == Tier2After(files, entryPoints, k)
    decreases m
  {
    if m > k {
      Tier2Stops(files, entryPoints, k, m - 1);
    }
  }

  /** The tier-2 loop: up to three files per core prefix, stopping once 25 are selected. */
  method AddCoreFiles(files: seq<string>, entryPoints: seq<string>) returns (selectedFiles: seq<string>)
    ensures selectedFiles == Tier2After(files, entryPoints, |CorePatterns|)
  {
    selectedFiles := entryPoints;
    for j := 0 to |CorePatterns|
      invariant selectedFiles == Tier2After(files, entryPoints, j)
      invariant j > 0 ==> |selectedFiles| < MaxFiles
    {
      var matchingFiles := CoreMatches(files, selectedFiles, CorePatterns[j]);
      selectedFiles := selectedFiles + matchingFiles;
      if |selectedFiles| >= MaxFiles {
        Tier2Stops(files, entryPoints, j + 1, |CorePatterns|);
        break;
      }
    }
  }

  /** `selectFilesToRead`: the entry points, then tier 2, then tier 3 while fewer than 25 are selected, then the cut at 25. */
  method SelectFilesToRead(files: seq<string>, t: ProjectType) returns (selectedFiles: seq<string>)
    ensures selectedFiles == SelectFiles(files, t)
  {
    var entryPoints := FindEntryPoints(files, t);
    selectedFiles := AddCoreFiles(files, entryPoints);
    if |selectedFiles| < MaxFiles {
      var topLevelSrc := TopLevelMatches(files, selectedFiles, MaxFiles - |selectedFiles|);
      selectedFiles := selectedFiles + topLevelSrc;
    }
    selectedFiles := Take(selectedFiles, MaxFiles);
  }

  /** x starts with one of the core prefixes. */
  predicate CoreAdmitted(x: string) {
    exists i :: 0 <= i < |CorePatterns| && StartsWith(x, CorePatterns[i])
  }

  /** Tier 2 only appends to the entry points. */
  lemma {:induction false} Tier2Extends(files: seq<string>, entryPoints: seq<string>, k: nat)
    requires k <= |CorePatterns|
    ensures entryPoints <= Tier2After(files, entryPoints, k)
  {
    if k > 0 {
      Tier2Extends(files, entryPoints, k - 1);
    }
  }

  /** What tier 2 appends is listed in files, under a core prefix and not skipped. */
  lemma {:induction false} Tier2Admitted(files: seq<string>, entryPoints: seq<string>, k: nat)
    requires k <= |CorePatterns|
    ensures forall x :: x in Tier2After(files, entryPoints, k) ==>
      x in entryPoints || (x in files && CoreAdmitted(x) && !Skipped(x))
  {
    if k > 0 {
      Tier2Admitted(files, entryPoints, k - 1);
      var prev := Tier2After(files, entryPoints, k - 1);
      var block := CoreMatches(files, prev, CorePatterns[k - 1]);
      var r := Tier2After(files, entryPoints, k);
      assert r == prev || r == prev + block;
      forall x | x in r ensures x in entryPoints || (x in files && CoreAdmitted(x) && !Skipped(x)) {
        if x !in prev {
          assert x in block;
          assert StartsWith(x, CorePatterns[k - 1]);
        }
      }
    }
  }

  /**
   * The limit is checked only after a prefix is done, so tier 2 can overshoot 25 by at
   * most two paths before the final cut.
   */
  lemma {:induction false} Tier2Bound(files: seq<string>, entryPoints: seq<string>, k: nat)
    requires k <= |CorePatterns| && |entryPoints| < MaxFiles
    ensures |Tier2After(files, entryPoints, k)| < MaxFiles + PerPrefix
  {
    if k > 0 {
      Tier2Bound(files, entryPoints, k - 1);
    }
  }

  /** Tier 2 adds only paths not selected yet, so it keeps a duplicate-free list so when files is. */
  lemma {:induction false} Tier2NoDuplicates(files: seq<string>, entryPoints: seq<string>, k: nat)
    requires k <= |CorePatterns| && NoDuplicates(files) && NoDuplicates(entryPoints)
    ensures NoDuplicates(Tier2After(files, entryPoints, k))
  {
    if k > 0 {
      Tier2NoDuplicates(files, entryPoints, k - 1);
      var prev := Tier2After(files, entryPoints, k - 1);
      if !(k > 1 && |prev| >= MaxFiles) {
        NoDuplicatesAppend(prev, CoreMatches(files, prev, CorePatterns[k - 1]));
      }
    }
  }

  /** The selection before the cut: the tier-1 and tier-2 list, with tier 3 appended while there is room. */
  lemma SelectFilesParts(files: seq<string>, t: ProjectType)
    ensures var before := BeforeTopLevel(files, t);
      var r := SelectFiles(files, t);
      && (|before| >= MaxFiles ==> r == before[..MaxFiles])
      && (|before| < MaxFiles ==>
            var top := TopLevelMatches(files, before, MaxFiles - |before|);
            r == before + top)
  {
  }

  /**
   * No path is made up: every selected path is listed in files and is an entry point,
   * a tier-2 path (under a core prefix, not skipped) or passes the tier-3 test.
   */
  lemma SelectedFromFiles(files: seq<string>, t: ProjectType)
    ensures forall x :: x in SelectFiles(files, t) ==>
      x in files && (x in EntryPoints(files, t) || (CoreAdmitted(x) && !Skipped(x)) || TopLevelSource(x))
  {
    var before := BeforeTopLevel(files, t);
    EntryPointsSpec(files, t);
    Tier2Admitted(files, EntryPoints(files, t), |CorePatterns|);
    SelectFilesParts(files, t);
    if |before| >= MaxFiles {
      assert forall x :: x in before[..MaxFiles] ==> x in before;
    }
  }

  /** When files has no duplicates, neither has the selection. */
  lemma SelectedNoDuplicates(files: seq<string>, t: ProjectType)
    requires NoDuplicates(files)
    ensures NoDuplicates(SelectFiles(files, t))
  {
    var before := BeforeTopLevel(files, t);
    EntryPointsSpec(files, t);
    Tier2NoDuplicates(files, EntryPoints(files, t), |CorePatterns|);
    SelectFilesParts(files, t);
    if |before| >= MaxFiles {
      NoDuplicatesPrefix(before, MaxFiles);
    } else {
      NoDuplicatesAppend(before, TopLevelMatches(files, before, MaxFiles - |before|));
    }
  }

  /** Entry points come first, then the tier-2 paths, then the tier-3 paths. */
  lemma TiersInOrder(files: seq<string>, t: ProjectType)
    ensures EntryPoints(files, t) <= SelectFiles(files, t)
    ensures Take(BeforeTopLevel(files, t), MaxFiles) <= SelectFiles(files, t)
  {
    var before := BeforeTopLevel(files, t);
    EntryPointsSpec(files, t);
    Tier2Extends(files, EntryPoints(files, t), |CorePatterns|);
    SelectFilesParts(files, t);
  }

  /** Tier 2 overshoots 25 by at most two paths; the final cut removes them. */
  lemma BeforeTopLevelBound(files: seq<string>, t: ProjectType)
    ensures |BeforeTopLevel(files, t)| < MaxFiles + PerPrefix
  {
    EntryPointsSpec(files, t);
    Tier2Bound(files, EntryPoints(files, t), |CorePatterns|);
  }

  /**
   * Unless the selection is full, every path passing the tier-3 test is selected; with
   * the precedence as written this includes '.js' and '.tsx' files at any depth.
   */
  lemma TopLevelSelectedUnlessFull(files: seq<string>, t: ProjectType)
    ensures |SelectFiles(files, t)| < MaxFiles ==>
      forall f :: f in files && TopLevelSource(f) ==> f in SelectFiles(files, t)
  {
    SelectFilesParts(files, t);
  }

  /** The tier-3 test as written admits a script at any depth ... */
  lemma NestedScriptIsTopLevel(dir: string, name: string)
    ensures TopLevelSource(dir + "/" + name + ".js") && TopLevelSource(dir + "/" + name + ".tsx")
  {
    assert (dir + "/" + name + ".js")[|dir + "/" + name|..] == ".js";
    assert (dir + "/" + name + ".tsx")[|dir + "/" + name|..] == ".tsx";
  }

  /** ... but no nested '.ts' file outside the direct children of src/. */
  lemma NestedTypeScriptIsNot(f: string)
    requires '/' in f && EndsWith(f, ".ts") && !(StartsWith(f, "src/") && Count(f, '/') == 1)
    ensures !TopLevelSource(f)
  {
    assert f[|f| - 2] == f[|f| - 3..][1] == 't';
    assert f[|f| - 1] == 's';
  }

  // ---------------------------------------------------------------------------
  // Reading the chosen files
  // ---------------------------------------------------------------------------

  const MaxFileLength: nat := 10000

  const TruncationNote: string := "\n... (truncated)"

  /** A text longer than 10000 characters keeps its first 10000 and gets a note appended. */
  function Truncated(content: string): (r: string)
    ensures |content| <= MaxFileLength ==> r == content
    ensures |content| > MaxFileLength ==>
      |r| == MaxFileLength + |TruncationNote| && r[..MaxFileLength] == content[..MaxFileLength]
  {
    if |content| > MaxFileLength then content[..MaxFileLength] + TruncationNote else content
  }

  /** Truncating twice is truncating once: a truncated text is short enough, or is cut back to itself. */
  lemma TruncatedIdempotent(content: string)
    ensures Truncated(Truncated(content)) == Truncated(content)
  {
    if |content| > MaxFileLength {
      var r := Truncated(content);
      assert r[..MaxFileLength] == content[..MaxFileLength];
    }
  }

  /** `sourceFilesContent` after the requests for `paths`: a non-empty reply is stored, truncated. */
  function SourceContents(paths: seq<string>, fileContent: string -> Option<string>): map<string, string> {
    if paths == [] then map[]
    else
      var m := SourceContents(paths[..|paths| - 1], fileContent);
      var path := paths[|paths| - 1];
      if Truthy(fileContent(path)) then m[path := Truncated(fileContent(path).value)] else m
  }

  /**
   * A path is analysed exactly when it was chosen and its request gave non-empty text,
   * the text stored is that text truncated, and there are no more analysed files than
   * chosen ones.
   */
  lemma {:induction false} SourceContentsSpec(paths: seq<string>, fileContent: string -> Option<string>)
    ensures var m := SourceContents(paths, fileContent);
      && (forall p :: p in m <==> p in paths && Truthy(fileContent(p)))
      && (forall p :: p in m ==> m[p] == Truncated(fileContent(p).value))
      && |m| <= |paths|
  {
    if paths != [] {
      var init := paths[..|paths| - 1];
      var path := paths[|paths| - 1];
      SourceContentsSpec(init, fileContent);
      assert paths == init + [path];
      var m := SourceContents(init, fileContent);
      if Truthy(fileContent(path)) {
        assert m[path := Truncated(fileContent(path).value)].Keys == m.Keys + {path};
      }
    }
  }

  /** The read loop: each chosen file is requested; a failed or empty request is skipped. */
  method ReadSourceFiles(filesToRead: seq<string>, fileContent: string -> Option<string>)
    returns (sourceFilesContent: map<string, string>)
    ensures sourceFilesContent == SourceContents(filesToRead, fileContent)
  {
    sourceFilesContent := map[];
    for j := 0 to |filesToRead|
      invariant sourceFilesContent == SourceContents(filesToRead[..j], fileContent)
    {
      var filePath := filesToRead[j];
      assert filesToRead[..j + 1][..j] == filesToRead[..j];
      var content := fileContent(filePath);
      if content.Some? && content.value != "" {
        sourceFilesContent := sourceFilesContent[filePath := if |content.value| > MaxFileLength
          then content.value[..MaxFileLength] + TruncationNote else content.value];
      }
    }
    assert filesToRead[..|filesToRead|] == filesToRead;
  }

  /** `keyFilesContent[name]`, None when the key is absent. */
  function Lookup(m: map<string, string>, name: string): Option<string> {
    if name in m then Some(m[name]) else None
  }

  /**
   * Steps 1 to 3 of `summarizeRepoExecute`: detect the type, choose the files, read them.
   * `metadata.language || undefined` needs no case of its own: an empty language matches
   * no name.
   */
  method PrepareSummary(files: seq<string>, language: Option<string>, keyFilesContent: map<string, string>,
                        parsedDeps: Option<PackageDeps>, fileContent: string -> Option<string>)
    returns (projectType: ProjectType, filesToRead: seq<string>, sourceFilesContent: map<string, string>)
    ensures projectType == DetectProjectType(files, Lookup(keyFilesContent, "package.json"), parsedDeps, language)
    ensures filesToRead == SelectFiles(files, projectType)
    ensures sourceFilesContent == SourceContents(filesToRead, fileContent)
    ensures |sourceFilesContent| <= MaxFiles
  {
    var packageJson := Lookup(keyFilesContent, "package.json");
    projectType := DetectProjectType(files, packageJson, parsedDeps, language);
    filesToRead := SelectFilesToRead(files, projectType);
    sourceFilesContent := ReadSourceFiles(filesToRead, fileContent);
    SourceContentsSpec(filesToRead, fileContent);
  }
}
