/**
 * Concrete instances of the generator on the fixture tree the test suites
 * use (test/less.js, test/terser.js): `./src/less` holds `style-1` and
 * `style-2`, `./src/js` holds `script-1` and `script-2`, and
 * `test/src/less` holds `example`.
 */
module Scenarios {
  import opened Wrappers
  import opened Values
  import opened Utils
  import opened Families
  import opened Config
  import opened Sources
  import opened ProfileOptions
  import opened Generator

  /** The fixture tree as the listing `getFolders` would read it. */
  function Fixtures(path: string): seq<string> {
    if path == "./src/less" then ["style-1", "style-2"]
    else if path == "./src/js" then ["script-1", "script-2"]
    else if path == "test/src/less" then ["example"]
    else []
  }

  const LessDevOptions: Options := map["optimization" := Int(2)]
  const LessProdOptions: Options :=
    map["compress" := Bool(true), "yuicompress" := Bool(true), "optimization" := Int(2)]

  /** Less defaults filled into empty options (test/less.js:5-20). */
  lemma LessOptionsFromEmpty()
    ensures FillOptions(map[], ProfileDefaults(Less, false)) == LessDevOptions
    ensures FillOptions(map[], ProfileDefaults(Less, true)) == LessProdOptions
  {
    var dev := ProfileDefaults(Less, false);
    assert dev[..0] == [];
    var prod := ProfileDefaults(Less, true);
    assert prod[..2][..1][..0] == [];
  }

  /** Sass defaults filled into empty options. */
  lemma SassOptionsFromEmpty()
    ensures FillOptions(map[], ProfileDefaults(Sass, false)) == map["style" := Str("expanded")]
    ensures FillOptions(map[], ProfileDefaults(Sass, true)) == map["style" := Str("compressed"), "noSourceMap" := Bool(true)]
  {
    var dev := ProfileDefaults(Sass, false);
    assert dev[..0] == [];
    var prod := ProfileDefaults(Sass, true);
    assert prod[..1][..0] == [];
  }

  /** Uglify defaults, the same for both profiles, filled into empty options. */
  lemma UglifyOptionsFromEmpty(production: bool)
    ensures FillOptions(map[], ProfileDefaults(Uglify, production))
         == map["beautify" := Bool(true), "mangle" := Bool(false), "compress" := Bool(false)]
  {
    var steps := ProfileDefaults(Uglify, production);
    assert steps[..0] == [];
    FillPrefix(map[], steps, 0);
    FillPrefix(map[], steps, 1);
    FillPrefix(map[], steps, 2);
    assert steps[..3] == steps;
  }

  /** The scope `ga('less')` builds when every field is left to its default. */
  const LessScope: Scope := Scope(Less, "less", "css", [], None, "src/less", "dist/css", "index", DefaultQueue())

  /**
   * The caller left the roots, entry, queue and options undefined and set no
   * hook other than, possibly, `data` and `result`.
   */
  predicate PlainLessCall(given: Conf) {
    && given.source.None? && given.dist.None? && given.entry.None? && given.queue.None? && given.options.None?
    && (given.filters.Some? ==>
          given.filters.value.folders.None? && given.filters.value.development.None? && given.filters.value.production.None?)
  }

  /** Two listed folders that both survive: one entry each, from their final descriptors. */
  lemma {:induction false} TwoFolders(s: Scope, a: string, b: string, isMin: bool)
    requires Resolve(s, a).Some? && Resolve(s, b).Some?
    ensures SrcOutput(s, [a, b], isMin) == map[
      OutputPath(Resolve(s, a).value, isMin, s.distExt) := InputFor(s, Resolve(s, a).value),
      OutputPath(Resolve(s, b).value, isMin, s.distExt) := InputFor(s, Resolve(s, b).value)]
  {
    var folders := [a, b];
    assert folders[..1] == [a] && [a][..0] == [];
    assert SrcOutput(s, [a], isMin) ==
      map[OutputPath(Resolve(s, a).value, isMin, s.distExt) := InputFor(s, Resolve(s, a).value)];
  }

  /** Two listed folders of which the second is dropped: only the first one's entry. */
  lemma {:induction false} SecondDropped(s: Scope, a: string, b: string, isMin: bool)
    requires Resolve(s, a).Some? && Resolve(s, b).None?
    ensures SrcOutput(s, [a, b], isMin) ==
      map[OutputPath(Resolve(s, a).value, isMin, s.distExt) := InputFor(s, Resolve(s, a).value)]
  {
    var folders := [a, b];
    assert folders[..1] == [a] && [a][..0] == [];
    assert SrcOutput(s, [a], isMin) ==
      map[OutputPath(Resolve(s, a).value, isMin, s.distExt) := InputFor(s, Resolve(s, a).value)];
  }

  /** A folder's key and entry in the default less layout, descriptor untouched. */
  lemma LessPaths(folder: string, isMin: bool)
    ensures Resolve(LessScope, folder) == Some(Describe(LessScope, folder))
    ensures OutputPath(Describe(LessScope, folder), isMin, "css") == "dist/css/" + folder + MinSuffix(isMin) + ".css"
    ensures InputFor(LessScope, Describe(LessScope, folder)) == Entry("src/less/" + folder + "/index.less")
  {
    assert Describe(LessScope, folder) == Descriptor(folder, folder, "src/less", "dist/css", "index");
  }

  lemma LessLiterals()
    ensures "dist/css/" + "style-1" + MinSuffix(false) + ".css" == "dist/css/style-1.css"
    ensures "dist/css/" + "style-2" + MinSuffix(false) + ".css" == "dist/css/style-2.css"
    ensures "dist/css/" + "style-1" + MinSuffix(true) + ".css" == "dist/css/style-1.min.css"
    ensures "dist/css/" + "style-2" + MinSuffix(true) + ".css" == "dist/css/style-2.min.css"
    ensures "src/less/" + "style-1" + "/index.less" == "src/less/style-1/index.less"
    ensures "src/less/" + "style-2" + "/index.less" == "src/less/style-2/index.less"
  {
  }

  /** The expected development profile of test/less.js:6-11, 21-22. */
  const LessDevProfile: Profile := Profile(LessDevOptions, map[
    "dist/css/style-1.css" := Entry("src/less/style-1/index.less"),
    "dist/css/style-2.css" := Entry("src/less/style-2/index.less")])

  /** The expected production profile of test/less.js:12-19, 23-24. */
  const LessProdProfile: Profile := Profile(LessProdOptions, map[
    "dist/css/style-1.min.css" := Entry("src/less/style-1/index.less"),
    "dist/css/style-2.min.css" := Entry("src/less/style-2/index.less")])

  /** Both files maps of the default less layout. */
  lemma LessDefaultFiles()
    ensures SrcOutput(LessScope, ["style-1", "style-2"], false) == LessDevProfile.files
    ensures SrcOutput(LessScope, ["style-1", "style-2"], true) == LessProdProfile.files
  {
    LessPaths("style-1", false);
    LessPaths("style-2", false);
    LessPaths("style-1", true);
    LessPaths("style-2", true);
    TwoFolders(LessScope, "style-1", "style-2", false);
    TwoFolders(LessScope, "style-1", "style-2", true);
    LessLiterals();
  }

  /**
   * With the default roots, entry and queue and no profile hook, each enabled
   * profile holds the less defaults and the files map of the listed folders
   * under the caller's ignores and `data` hook.
   */
  lemma LessProfiles(arg: ConfArg, production: bool)
    requires PlainLessCall(Supplied(arg))
    ensures
      var c := Normalize(arg, Container(Less), DistExt(Less));
      HookedProfile(Less, c, Folders(Less, c, Fixtures), production) == Some(Profile(
        if production then LessProdOptions else LessDevOptions,
        SrcOutput(LessScope.(ignores := c.ignores.value, data := c.filters.value.data), ["style-1", "style-2"], production)))
  {
    var c := Normalize(arg, Container(Less), DistExt(Less));
    PlainLessScope(arg);
    LessOptionsFromEmpty();
    assert Folders(Less, c, Fixtures) == ["style-1", "style-2"];
  }

  /** The whole result of such a call when no `result` hook is set either. */
  lemma LessOutput(arg: ConfArg)
    requires PlainLessCall(Supplied(arg))
    requires Supplied(arg).filters.Some? ==> Supplied(arg).filters.value.result.None?
    ensures
      var c := Normalize(arg, Container(Less), DistExt(Less));
      var s := LessScope.(ignores := c.ignores.value, data := c.filters.value.data);
      GenerateFor(Less, arg, Fixtures) == Output(
        if c.devEnabled.value then Some(Profile(LessDevOptions, SrcOutput(s, ["style-1", "style-2"], false))) else None,
        if c.minEnabled.value then Some(Profile(LessProdOptions, SrcOutput(s, ["style-1", "style-2"], true))) else None,
        map[])
  {
    LessProfiles(arg, false);
    LessProfiles(arg, true);
  }

  lemma PlainLessScope(arg: ConfArg)
    requires PlainLessCall(Supplied(arg))
    ensures
      var c := Normalize(arg, Container(Less), DistExt(Less));
      && c.source == Some("./src/less") && c.options.None?
      && ScopeOf(Less, c) == LessScope.(ignores := c.ignores.value, data := c.filters.value.data)
  {
    var c := Normalize(arg, Container(Less), DistExt(Less));
    LessTable();
    DefaultRoots(Less, arg);
    assert c.source == Some("./src/less");
    assert StripDotSlash(c.source.value) == "src/less";
    assert StripDotSlash(c.dist.value) == "dist/css";
    assert c.entry == Some("index") && c.queue.None?;
  }

  /** The less row of the family table, spelled out. */
  lemma LessTable()
    ensures SrcExt(Less) == "less" && DistExt(Less) == "css" && Container(Less) == "less"
    ensures DefaultSource("less") == "./src/less"
    ensures "src/" + "less" == "src/less" && "dist/" + "css" == "dist/css"
  {
  }

  /** `ga('less')` (test/less.js:32-35). */
  lemma LessDefault()
    ensures GenerateFor(Less, Undefined, Fixtures) == Output(Some(LessDevProfile), Some(LessProdProfile), map[])
  {
    LessProfiles(Undefined, false);
    LessProfiles(Undefined, true);
    LessDefaultFiles();
  }

  /** `ga('less', {devEnabled: false})` (test/less.js:39-47). */
  lemma LessOnlyProduction()
    ensures GenerateFor(Less, ObjectValue(EmptyConf.(devEnabled := Some(false))), Fixtures)
         == Output(None, Some(LessProdProfile), map[])
  {
    var arg := ObjectValue(EmptyConf.(devEnabled := Some(false)));
    LessProfiles(arg, true);
    LessDefaultFiles();
  }

  /** `ga('less', {minEnabled: false})` (test/less.js:51-59). */
  lemma LessOnlyDevelopment()
    ensures GenerateFor(Less, ObjectValue(EmptyConf.(minEnabled := Some(false))), Fixtures)
         == Output(Some(LessDevProfile), None, map[])
  {
    var arg := ObjectValue(EmptyConf.(minEnabled := Some(false)));
    LessProfiles(arg, false);
    LessDefaultFiles();
  }

  /** `ga('less', {filters: {result}})` with a hook adding `test: 'Hi!'` (test/less.js:150-163). */
  lemma LessResultHook()
    ensures
      var hook := (out: Output) => out.(extra := out.extra["test" := Str("Hi!")]);
      GenerateFor(Less, ObjectValue(EmptyConf.(filters := Some(NoHooks.(result := Some(hook))))), Fixtures)
        == Output(Some(LessDevProfile), Some(LessProdProfile), map["test" := Str("Hi!")])
  {
    var hook := (out: Output) => out.(extra := out.extra["test" := Str("Hi!")]);
    var arg := ObjectValue(EmptyConf.(filters := Some(NoHooks.(result := Some(hook)))));
    LessProfiles(arg, false);
    LessProfiles(arg, true);
    LessDefaultFiles();
  }

  /** `ga('less', {ignores: ['style-2']})` (test/less.js:63-72). */
  lemma LessIgnoresStyle2()
    ensures GenerateFor(Less, ObjectValue(EmptyConf.(ignores := Some(["style-2"]))), Fixtures) == Output(
      Some(Profile(LessDevOptions, map["dist/css/style-1.css" := Entry("src/less/style-1/index.less")])),
      Some(Profile(LessProdOptions, map["dist/css/style-1.min.css" := Entry("src/less/style-1/index.less")])),
      map[])
  {
    var arg := ObjectValue(EmptyConf.(ignores := Some(["style-2"])));
    LessProfiles(arg, false);
    LessProfiles(arg, true);
    IgnoredFiles();
  }

  /** The files map when `style-2` is ignored. */
  lemma IgnoredFiles()
    ensures SrcOutput(LessScope.(ignores := ["style-2"]), ["style-1", "style-2"], false)
         == map["dist/css/style-1.css" := Entry("src/less/style-1/index.less")]
    ensures SrcOutput(LessScope.(ignores := ["style-2"]), ["style-1", "style-2"], true)
         == map["dist/css/style-1.min.css" := Entry("src/less/style-1/index.less")]
  {
    var s := LessScope.(ignores := ["style-2"]);
    assert "style-1" != "style-2" by { assert "style-1"[6] != "style-2"[6]; }
    assert Resolve(s, "style-1") == Some(Describe(LessScope, "style-1"));
    assert InputFor(s, Describe(LessScope, "style-1")) == InputFor(LessScope, Describe(LessScope, "style-1"));
    LessPaths("style-1", false);
    LessPaths("style-1", true);
    SecondDropped(s, "style-1", "style-2", false);
    SecondDropped(s, "style-1", "style-2", true);
    LessLiterals();
  }

  /** `ga('less', {source: 'test/src/less', dist: 'assets/css'})` (test/less.js:76-102). */
  lemma LessCustomRoots()
    ensures GenerateFor(Less, ObjectValue(EmptyConf.(source := Some("test/src/less"), dist := Some("assets/css"))), Fixtures)
         == Output(
              Some(Profile(LessDevOptions, map["assets/css/example.css" := Entry("test/src/less/example/index.less")])),
              Some(Profile(LessProdOptions, map["assets/css/example.min.css" := Entry("test/src/less/example/index.less")])),
              map[])
  {
    var arg := ObjectValue(EmptyConf.(source := Some("test/src/less"), dist := Some("assets/css")));
    var s := LessScope.(sourcePath := "test/src/less", distPath := "assets/css");
    assert StripDotSlash("test/src/less") == "test/src/less" by { assert "test/src/less"[..2] == "te"; }
    assert StripDotSlash("assets/css") == "assets/css" by { assert "assets/css"[..2] == "as"; }
    assert ScopeOf(Less, Normalize(arg, Container(Less), DistExt(Less))) == s;
    LessOptionsFromEmpty();
    var d := Describe(s, "example");
    assert Resolve(s, "example") == Some(d);
    CustomRootsPaths();
    assert ["example"][..0] == [];
  }

  lemma CustomRootsPaths()
    ensures "assets/css" + "/" + "example" + MinSuffix(false) + "." + "css" == "assets/css/example.css"
    ensures "assets/css" + "/" + "example" + MinSuffix(true) + "." + "css" == "assets/css/example.min.css"
    ensures "test/src/less" + "/" + "example" + "/" + "index" + "." + "less" == "test/src/less/example/index.less"
  {
  }

  /** The test's `data` hook that names the entry file after its folder (test/less.js:109-112). */
  function EntryFromName(d: Descriptor, f: Family): Option<Descriptor> {
    Some(d.(entry := d.iname))
  }

  /** `ga('less', {filters: {data}})` with entry := iname (test/less.js:106-122). */
  lemma LessEntryHook()
    ensures GenerateFor(Less, ObjectValue(EmptyConf.(filters := Some(NoHooks.(data := Some(EntryFromName))))), Fixtures)
         == Output(
              Some(Profile(LessDevOptions, map[
                "dist/css/style-1.css" := Entry("src/less/style-1/style-1.less"),
                "dist/css/style-2.css" := Entry("src/less/style-2/style-2.less")])),
              Some(Profile(LessProdOptions, map[
                "dist/css/style-1.min.css" := Entry("src/less/style-1/style-1.less"),
                "dist/css/style-2.min.css" := Entry("src/less/style-2/style-2.less")])),
              map[])
  {
    var arg := ObjectValue(EmptyConf.(filters := Some(NoHooks.(data := Some(EntryFromName)))));
    LessProfiles(arg, false);
    LessProfiles(arg, true);
    EntryHookFiles(false);
    EntryHookFiles(true);
    LessLiterals();
    EntryHookLiterals();
  }

  lemma EntryHookFiles(isMin: bool)
    ensures SrcOutput(LessScope.(data := Some(EntryFromName)), ["style-1", "style-2"], isMin) == map[
      "dist/css/" + "style-1" + MinSuffix(isMin) + ".css" := Entry("src/less" + "/" + "style-1" + "/" + "style-1" + "." + "less"),
      "dist/css/" + "style-2" + MinSuffix(isMin) + ".css" := Entry("src/less" + "/" + "style-2" + "/" + "style-2" + "." + "less")]
  {
    var s := LessScope.(data := Some(EntryFromName));
    assert Resolve(s, "style-1") == Some(Describe(LessScope, "style-1").(entry := "style-1"));
    assert Resolve(s, "style-2") == Some(Describe(LessScope, "style-2").(entry := "style-2"));
    LessPaths("style-1", isMin);
    LessPaths("style-2", isMin);
    TwoFolders(s, "style-1", "style-2", isMin);
  }

  lemma EntryHookLiterals()
    ensures "src/less" + "/" + "style-1" + "/" + "style-1" + "." + "less" == "src/less/style-1/style-1.less"
    ensures "src/less" + "/" + "style-2" + "/" + "style-2" + "." + "less" == "src/less/style-2/style-2.less"
  {
  }

  /** `s.replaceAll('-', '')`: every dash removed, the other characters kept in order. */
  function WithoutDashes(s: string): (r: string)
    ensures '-' !in r
    ensures |r| <= |s|
  {
    if s == [] then [] else (if s[0] == '-' then [] else [s[0]]) + WithoutDashes(s[1..])
  }

  lemma {:induction false} WithoutDashesAppend(a: string, b: string)
    ensures WithoutDashes(a + b) == WithoutDashes(a) + WithoutDashes(b)
  {
    if a == [] {
      assert a + b == b;
    } else {
      assert (a + b)[0] == a[0];
      assert (a + b)[1..] == a[1..] + b;
      WithoutDashesAppend(a[1..], b);
    }
  }

  lemma {:induction false} WithoutDashesNoDash(s: string)
    requires '-' !in s
    ensures WithoutDashes(s) == s
  {
    if s != [] {
      assert s[0] in s;
      assert forall c :: c in s[1..] ==> c in s;
      WithoutDashesNoDash(s[1..]);
    }
  }

  /** `style-<n>` loses its one dash. */
  lemma WithoutDashesOfStyle(prefix: string, n: string)
    requires '-' !in prefix && '-' !in n
    ensures WithoutDashes(prefix + "-" + n) == prefix + n
  {
    var dash := "-";
    assert WithoutDashes(dash) == [] by { assert dash[1..] == []; }
    WithoutDashesAppend(prefix + dash, n);
    WithoutDashesAppend(prefix, dash);
    WithoutDashesNoDash(prefix);
    WithoutDashesNoDash(n);
    assert WithoutDashes(prefix + dash) == prefix;
    assert WithoutDashes(prefix + dash + n) == prefix + n;
  }

  lemma WithoutDashesOfStyles()
    ensures WithoutDashes("style-1") == "style1" && WithoutDashes("style-2") == "style2"
  {
    var style, one, two := "style", "1", "2";
    WithoutDashesOfStyle(style, one);
    WithoutDashesOfStyle(style, two);
    assert style + "-" + one == "style-1" && style + one == "style1";
    assert style + "-" + two == "style-2" && style + two == "style2";
  }

  /** The test's `data` hook that drops the dashes of the output name (test/less.js:129-132). */
  function DashlessOutput(d: Descriptor, f: Family): Option<Descriptor> {
    Some(d.(oname := WithoutDashes(d.oname)))
  }

  lemma DashlessFiles(isMin: bool)
    ensures SrcOutput(LessScope.(data := Some(DashlessOutput)), ["style-1", "style-2"], isMin) == map[
      "dist/css" + "/" + "style1" + MinSuffix(isMin) + "." + "css" := Entry("src/less/style-1/index.less"),
      "dist/css" + "/" + "style2" + MinSuffix(isMin) + "." + "css" := Entry("src/less/style-2/index.less")]
  {
    var s := LessScope.(data := Some(DashlessOutput));
    WithoutDashesOfStyles();
    var d1 := Describe(LessScope, "style-1").(oname := "style1");
    var d2 := Describe(LessScope, "style-2").(oname := "style2");
    assert Resolve(s, "style-1") == Some(d1);
    assert Resolve(s, "style-2") == Some(d2);
    LessPaths("style-1", isMin);
    LessPaths("style-2", isMin);
    assert InputFor(s, d1) == InputFor(LessScope, Describe(LessScope, "style-1"));
    assert InputFor(s, d2) == InputFor(LessScope, Describe(LessScope, "style-2"));
    LessLiterals();
    TwoFolders(s, "style-1", "style-2", isMin);
  }

  /** Both files maps when the output names lose their dashes. */
  lemma DashlessProfiles()
    ensures SrcOutput(LessScope.(data := Some(DashlessOutput)), ["style-1", "style-2"], false) == map[
      "dist/css/style1.css" := Entry("src/less/style-1/index.less"),
      "dist/css/style2.css" := Entry("src/less/style-2/index.less")]
    ensures SrcOutput(LessScope.(data := Some(DashlessOutput)), ["style-1", "style-2"], true) == map[
      "dist/css/style1.min.css" := Entry("src/less/style-1/index.less"),
      "dist/css/style2.min.css" := Entry("src/less/style-2/index.less")]
  {
    DashlessFiles(false);
    DashlessFiles(true);
    DashlessLiterals();
  }

  lemma DashlessLiterals()
    ensures "dist/css" + "/" + "style1" + MinSuffix(false) + "." + "css" == "dist/css/style1.css"
    ensures "dist/css" + "/" + "style2" + MinSuffix(false) + "." + "css" == "dist/css/style2.css"
    ensures "dist/css" + "/" + "style1" + MinSuffix(true) + "." + "css" == "dist/css/style1.min.css"
    ensures "dist/css" + "/" + "style2" + MinSuffix(true) + "." + "css" == "dist/css/style2.min.css"
  {
  }

  /** `ga('less', {filters: {data}})` with dashes dropped from oname (test/less.js:126-146). */
  lemma LessDashlessHook()
    ensures GenerateFor(Less, ObjectValue(EmptyConf.(filters := Some(NoHooks.(data := Some(DashlessOutput))))), Fixtures)
         == Output(
              Some(Profile(LessDevOptions, map[
                "dist/css/style1.css" := Entry("src/less/style-1/index.less"),
                "dist/css/style2.css" := Entry("src/less/style-2/index.less")])),
              Some(Profile(LessProdOptions, map[
                "dist/css/style1.min.css" := Entry("src/less/style-1/index.less"),
                "dist/css/style2.min.css" := Entry("src/less/style-2/index.less")])),
              map[])
  {
    var arg := ObjectValue(EmptyConf.(filters := Some(NoHooks.(data := Some(DashlessOutput)))));
    var c := Normalize(arg, Container(Less), DistExt(Less));
    LessOutput(arg);
    assert c.devEnabled == Some(true) && c.minEnabled == Some(true);
    assert LessScope.(ignores := c.ignores.value, data := c.filters.value.data) == LessScope.(data := Some(DashlessOutput));
    DashlessProfiles();
  }

  /** The terser options of test/terser.js:7-15 (development) and 19-27 (production). */
  function TerserOptions(production: bool): Options {
    map["mangle" := Bool(production), "compress" := Bool(production),
        "keep_classnames" := Bool(true), "keep_fnames" := Bool(true),
        "format" := Obj(map["beautify" := Bool(!production)])]
  }

  lemma TerserOptionsFromEmpty(production: bool)
    ensures FillOptions(map[], ProfileDefaults(Terser, production)) == TerserOptions(production)
  {
    var steps := ProfileDefaults(Terser, production);
    assert steps[..0] == [];
    FillPrefix(map[], steps, 0);
    FillPrefix(map[], steps, 1);
    FillPrefix(map[], steps, 2);
    FillPrefix(map[], steps, 3);
    FillPrefix(map[], steps, 4);
    FillPrefix(map[], steps, 5);
    assert steps[..6] == steps;
  }

  /** The glob list the test expects for one module folder `m` (test/terser.js:31-40). */
  function ScriptGlobs(m: string): seq<string> {
    [m + "/polyfill/**/*.js", m + "/addon/**/*.js", m + "/config.js", m + "/jquery/**/*.js",
     m + "/functions/**/*.js", m + "/classes/**/*.js", m + "/index.js", m + "/runners/**/*.js"]
  }

  lemma DefaultQueueIsScriptGlobs(m: string)
    ensures Templated(DefaultQueue(), m) == ScriptGlobs(m)
  {
    DefaultQueueTemplated(m);
  }

  /** The scope `ga('terser')` builds with every default in place. */
  const TerserScope: Scope := Scope(Terser, "js", "js", [], None, "src/js", "dist/js", "index", DefaultQueue())

  lemma TerserDefaultScope()
    ensures
      var c := Normalize(Undefined, Container(Terser), DistExt(Terser));
      && c.source == Some("./src/js") && c.filters == Some(NoHooks) && c.options.None?
      && c.devEnabled == Some(true) && c.minEnabled == Some(true)
      && ScopeOf(Terser, c) == TerserScope
  {
    var c := Normalize(Undefined, Container(Terser), DistExt(Terser));
    TerserTable();
    DefaultRoots(Terser, Undefined);
    assert c.source == Some("./src/js");
    assert StripDotSlash(c.source.value) == "src/js";
    assert StripDotSlash(c.dist.value) == "dist/js";
  }

  /** The terser row of the family table, spelled out. */
  lemma TerserTable()
    ensures SrcExt(Terser) == "js" && DistExt(Terser) == "js" && Container(Terser) == "js"
    ensures DefaultSource("js") == "./src/js"
    ensures "src/" + "js" == "src/js" && "dist/" + "js" == "dist/js"
  {
  }

  /** A folder's key and glob list in the default terser layout. */
  lemma TerserPaths(folder: string, isMin: bool)
    ensures Resolve(TerserScope, folder) == Some(Describe(TerserScope, folder))
    ensures OutputPath(Describe(TerserScope, folder), isMin, "js") == "dist/js" + "/" + folder + MinSuffix(isMin) + "." + "js"
    ensures InputFor(TerserScope, Describe(TerserScope, folder)) == Globs(ScriptGlobs("src/js" + "/" + folder))
  {
    DefaultQueueIsScriptGlobs("src/js" + "/" + folder);
  }

  lemma TerserLiterals()
    ensures "dist/js" + "/" + "script-1" + MinSuffix(false) + "." + "js" == "dist/js/script-1.js"
    ensures "dist/js" + "/" + "script-2" + MinSuffix(false) + "." + "js" == "dist/js/script-2.js"
    ensures "dist/js" + "/" + "script-1" + MinSuffix(true) + "." + "js" == "dist/js/script-1.min.js"
    ensures "dist/js" + "/" + "script-2" + MinSuffix(true) + "." + "js" == "dist/js/script-2.min.js"
    ensures "src/js" + "/" + "script-1" == "src/js/script-1"
    ensures "src/js" + "/" + "script-2" == "src/js/script-2"
  {
  }

  lemma TerserDefaultFiles(isMin: bool)
    ensures SrcOutput(TerserScope, ["script-1", "script-2"], isMin) == map[
      "dist/js" + "/" + "script-1" + MinSuffix(isMin) + "." + "js" := Globs(ScriptGlobs("src/js/script-1")),
      "dist/js" + "/" + "script-2" + MinSuffix(isMin) + "." + "js" := Globs(ScriptGlobs("src/js/script-2"))]
  {
    TerserPaths("script-1", isMin);
    TerserPaths("script-2", isMin);
    TerserLiterals();
    TwoFolders(TerserScope, "script-1", "script-2", isMin);
  }

  /** `ga('terser')` (test/terser.js:78-82). */
  lemma TerserDefault()
    ensures GenerateFor(Terser, Undefined, Fixtures) == Output(
      Some(Profile(TerserOptions(false), map[
        "dist/js/script-1.js" := Globs(ScriptGlobs("src/js/script-1")),
        "dist/js/script-2.js" := Globs(ScriptGlobs("src/js/script-2"))])),
      Some(Profile(TerserOptions(true), map[
        "dist/js/script-1.min.js" := Globs(ScriptGlobs("src/js/script-1")),
        "dist/js/script-2.min.js" := Globs(ScriptGlobs("src/js/script-2"))])),
      map[])
  {
    var c := Normalize(Undefined, Container(Terser), DistExt(Terser));
    TerserDefaultScope();
    assert Folders(Terser, c, Fixtures) == ["script-1", "script-2"];
    TerserOptionsFromEmpty(false);
    TerserOptionsFromEmpty(true);
    TerserDefaultFiles(false);
    TerserDefaultFiles(true);
    TerserLiterals();
  }
}
