/**
 * `ga` (index.js:59-207) and its four exported wrappers (index.js:211-215):
 * normalise the configuration, list and filter the module folders, build the
 * files map for each enabled profile, default its options, apply the profile
 * hooks and finally the result hook.
 */
module Generator {
  import opened Wrappers
  import opened Values
  import opened Utils
  import opened Families
  import opened Config
  import opened Sources
  import opened ProfileOptions

  /** The directory listing `getFolders` reads: the sub-folder names of a path, empty when it is absent. */
  type Listing = string -> seq<string>

  /** The options a caller supplied for a profile through `conf.options` (index.js:137-139, 171-173). */
  function CallerOptions(c: Conf, production: bool): Options {
    match c.options
    case None => map[]
    case Some(o) => (if production then o.production else o.development).GetOr(map[])
  }

  /** The folder list after the `folders` hook (index.js:71-75). */
  function Folders(f: Family, c: Conf, fs: Listing): seq<string>
    requires Normalized(c)
  {
    var listed := fs(c.source.value);
    match c.filters.value.folders
    case None => listed
    case Some(hook) => hook(listed, f)
  }

  /** What `generateSrcOutput` sees of the call (index.js:65-67, 77-91). */
  function ScopeOf(f: Family, c: Conf): Scope
    requires Normalized(c)
  {
    Scope(f, SrcExt(f), DistExt(f), c.ignores.value, c.filters.value.data,
          StripDotSlash(c.source.value), StripDotSlash(c.dist.value), c.entry.value,
          c.queue.GetOr(DefaultQueue()))
  }

  /** A profile before its hook: defaulted options and the files map. */
  function BaseProfile(f: Family, c: Conf, folders: seq<string>, production: bool): Profile
    requires Normalized(c)
  {
    Profile(FillOptions(CallerOptions(c, production), ProfileDefaults(f, production)),
            SrcOutput(ScopeOf(f, c), folders, production))
  }

  /** A profile after its hook; None when the hook returned a falsy value. */
  function HookedProfile(f: Family, c: Conf, folders: seq<string>, production: bool): Option<Profile>
    requires Normalized(c)
  {
    var p := BaseProfile(f, c, folders, production);
    if production then
      match c.filters.value.production
      case None => Some(p)
      case Some(hook) => hook(p)
    else
      match c.filters.value.development
      case None => Some(p)
      case Some(hook) => hook(p, f)
  }

  /** The result before the `result` hook. */
  function Assembled(f: Family, c: Conf, fs: Listing): Output
    requires Normalized(c)
  {
    var folders := Folders(f, c, fs);
    Output(
      if c.devEnabled.value then HookedProfile(f, c, folders, false) else None,
      if c.minEnabled.value then HookedProfile(f, c, folders, true) else None,
      map[])
  }

  /** `ga` for a known family. */
  function GenerateFor(f: Family, arg: ConfArg, fs: Listing): Output {
    var c := Normalize(arg, Container(f), DistExt(f));
    var out := Assembled(f, c, fs);
    match c.filters.value.result
    case None => out
    case Some(hook) => hook(out)
  }

  /** `ga`: null (None) for a processor name outside the four families. */
  function Generate(processorType: string, arg: ConfArg, fs: Listing): Option<Output> {
    match FamilyOf(processorType)
    case None => None
    case Some(f) => Some(GenerateFor(f, arg, fs))
  }

  /** The development block (index.js:132-163): files, caller options, defaults, then the hook. */
  method DevelopmentBlock(f: Family, conf: Conf, scope: Scope, folders: seq<string>) returns (kept: Option<Profile>)
    requires Normalized(conf) && scope == ScopeOf(f, conf)
    ensures kept == HookedProfile(f, conf, folders, false)
  {
    var files := GenerateSrcOutput(scope, folders, false);
    var development := Profile(map[], files);
    if conf.options.Some? && conf.options.value.development.Some? {
      development := development.(options := conf.options.value.development.value);
    }
    var options := DefaultDevelopmentOptions(f, development.options);
    development := development.(options := options);
    kept := Some(development);
    if conf.filters.value.development.Some? {
      kept := conf.filters.value.development.value(development, f);
    }
  }

  /** The production block (index.js:166-200); its hook gets no family argument. */
  method ProductionBlock(f: Family, conf: Conf, scope: Scope, folders: seq<string>) returns (kept: Option<Profile>)
    requires Normalized(conf) && scope == ScopeOf(f, conf)
    ensures kept == HookedProfile(f, conf, folders, true)
  {
    var files := GenerateSrcOutput(scope, folders, true);
    var production := Profile(map[], files);
    if conf.options.Some? && conf.options.value.production.Some? {
      production := production.(options := conf.options.value.production.value);
    }
    var options := DefaultProductionOptions(f, production.options);
    production := production.(options := options);
    kept := Some(production);
    if conf.filters.value.production.Some? {
      kept := conf.filters.value.production.value(production);
    }
  }

  /** The lower-casing and the membership test of index.js:60-63. */
  method ProcessorFamily(processorType: string) returns (family: Option<Family>)
    ensures family == FamilyOf(processorType)
  {
    var name := LowerAscii(processorType);
    var known := InArray(name, FamilyNames);
    if !known {
      return None;
    }
    family := Some(if name == "less" then Less else if name == "sass" then Sass else if name == "terser" then Terser else Uglify);
  }

  /** `ga(processorType, conf)` as index.js:59-207 runs it, step by step. */
  method Ga(processorType: string, arg: ConfArg, fs: Listing) returns (r: Option<Output>)
    ensures r == Generate(processorType, arg, fs)
  {
    var family := ProcessorFamily(processorType);
    if family.None? {
      return None;
    }
    var f := family.value;
    var srcFileExtension := SrcExt(f);
    var distFileExtension := DistExt(f);
    var srcContainer := Container(f);
    var conf := ModifyConf(arg, srcContainer, distFileExtension);
    assert conf == Normalize(arg, Container(f), DistExt(f));
    var filters := conf.filters.value;

    var folders := fs(conf.source.value);
    if filters.folders.Some? {
      folders := filters.folders.value(folders, f);
    }
    assert folders == Folders(f, conf, fs);

    var sourcePath := StripDotSlash(conf.source.value);
    var distPath := StripDotSlash(conf.dist.value);
    var result := Output(None, None, map[]);
    var queue := if conf.queue.None? then DefaultQueue() else conf.queue.value;
    var scope := Scope(f, srcFileExtension, distFileExtension, conf.ignores.value, filters.data,
                       sourcePath, distPath, conf.entry.value, queue);
    assert scope == ScopeOf(f, conf);

    if conf.devEnabled.value {
      var development := DevelopmentBlock(f, conf, scope, folders);
      if development.Some? {
        result := result.(development := development);
      }
    }

    if conf.minEnabled.value {
      var production := ProductionBlock(f, conf, scope, folders);
      if production.Some? {
        result := result.(production := production);
      }
    }

    assert result == Assembled(f, conf, fs);
    if filters.result.Some? {
      result := filters.result.value(result);
    }
    return Some(result);
  }

  /** `gaLess`: `ga('less', conf)`, which is never null. */
  method GaLess(arg: ConfArg, fs: Listing) returns (r: Option<Output>)
    ensures r == Some(GenerateFor(Less, arg, fs))
  {
    FamilyOfOwnName(Less);
    r := Ga("less", arg, fs);
  }

  /** `gaSass`: `ga('sass', conf)`, which is never null. */
  method GaSass(arg: ConfArg, fs: Listing) returns (r: Option<Output>)
    ensures r == Some(GenerateFor(Sass, arg, fs))
  {
    FamilyOfOwnName(Sass);
    r := Ga("sass", arg, fs);
  }

  /** `gaTerser`: `ga('terser', conf)`, which is never null. */
  method GaTerser(arg: ConfArg, fs: Listing) returns (r: Option<Output>)
    ensures r == Some(GenerateFor(Terser, arg, fs))
  {
    FamilyOfOwnName(Terser);
    r := Ga("terser", arg, fs);
  }

  /** `gaUglify`: `ga('uglify', conf)`, which is never null. */
  method GaUglify(arg: ConfArg, fs: Listing) returns (r: Option<Output>)
    ensures r == Some(GenerateFor(Uglify, arg, fs))
  {
    FamilyOfOwnName(Uglify);
    r := Ga("uglify", arg, fs);
  }

  /** `ga` returns null exactly for a processor name that is none of the four families, in any case. */
  lemma GenerateNullIffUnknown(processorType: string, arg: ConfArg, fs: Listing)
    ensures Generate(processorType, arg, fs).None? <==> LowerAscii(processorType) !in FamilyNames
    ensures Generate("LESS", arg, fs) == Generate("less", arg, fs)
  {
    assert LowerAscii("LESS") == "less";
    assert LowerAscii("less") == "less";
  }

  /**
   * Without a result hook, a profile key is present exactly when its profile
   * is enabled and either it has no hook or its hook returned a truthy value.
   * Without a hook the key holds the built profile; with one it holds what
   * the hook returned for the built profile (the development hook also gets
   * the family, the production hook does not). No other key appears.
   */
  lemma ProfilePresence(f: Family, arg: ConfArg, fs: Listing)
    requires Normalize(arg, Container(f), DistExt(f)).filters.value.result.None?
    ensures
      var c := Normalize(arg, Container(f), DistExt(f));
      var h := c.filters.value;
      var dev := BaseProfile(f, c, Folders(f, c, fs), false);
      var out := GenerateFor(f, arg, fs);
      && (out.development.Some? <==> c.devEnabled.value && (h.development.None? || h.development.value(dev, f).Some?))
      && (c.devEnabled.value && h.development.None? ==> out.development == Some(dev))
      && (c.devEnabled.value && h.development.Some? ==> out.development == h.development.value(dev, f))
    ensures
      var c := Normalize(arg, Container(f), DistExt(f));
      var h := c.filters.value;
      var prod := BaseProfile(f, c, Folders(f, c, fs), true);
      var out := GenerateFor(f, arg, fs);
      && (out.production.Some? <==> c.minEnabled.value && (h.production.None? || h.production.value(prod).Some?))
      && (c.minEnabled.value && h.production.None? ==> out.production == Some(prod))
      && (c.minEnabled.value && h.production.Some? ==> out.production == h.production.value(prod))
    ensures GenerateFor(f, arg, fs).extra == map[]
  {
  }

  /** The hooks that rewrite what is built are all absent (a `folders` hook may be present). */
  predicate OnlyFoldersHook(h: Hooks) {
    h.data.None? && h.development.None? && h.production.None? && h.result.None?
  }

  /** Without profile or result hooks an enabled profile is the built profile itself. */
  lemma UnhookedProfile(f: Family, arg: ConfArg, fs: Listing, production: bool)
    requires OnlyFoldersHook(Normalize(arg, Container(f), DistExt(f)).filters.value)
    ensures
      var c := Normalize(arg, Container(f), DistExt(f));
      var out := GenerateFor(f, arg, fs);
      && out.extra == map[]
      && (if production then out.production else out.development) ==
         (if (if production then c.minEnabled.value else c.devEnabled.value)
          then Some(BaseProfile(f, c, Folders(f, c, fs), production)) else None)
  {
  }

  /**
   * Without data, profile or result hooks: a profile key is present exactly
   * when its profile is enabled; its files map has one entry per folder of the
   * (possibly hook-filtered) listing that is not ignored, and nothing else; its
   * options are the caller's options with the family defaults filled in.
   */
  lemma {:induction false} ProfilesWithoutHooks(f: Family, arg: ConfArg, fs: Listing, production: bool, folder: string)
    requires OnlyFoldersHook(Normalize(arg, Container(f), DistExt(f)).filters.value)
    ensures
      var c := Normalize(arg, Container(f), DistExt(f));
      var out := GenerateFor(f, arg, fs);
      var p := if production then out.production else out.development;
      && out.extra == map[]
      && (p.Some? <==> (if production then c.minEnabled.value else c.devEnabled.value))
      && (p.Some? ==>
            && (PlainKey(ScopeOf(f, c), folder, production) in p.value.files
                <==> folder in Folders(f, c, fs) && folder !in c.ignores.value)
            && (folder in Folders(f, c, fs) && folder !in c.ignores.value ==>
                  p.value.files[PlainKey(ScopeOf(f, c), folder, production)] == InputFor(ScopeOf(f, c), Describe(ScopeOf(f, c), folder)))
            && p.value.options == FillOptions(CallerOptions(c, production), ProfileDefaults(f, production)))
    ensures
      var c := Normalize(arg, Container(f), DistExt(f));
      var out := GenerateFor(f, arg, fs);
      var p := if production then out.production else out.development;
      p.Some? ==>
        forall key :: key in p.value.files ==>
          exists x :: x in Folders(f, c, fs) && x !in c.ignores.value && key == PlainKey(ScopeOf(f, c), x, production)
  {
    var c := Normalize(arg, Container(f), DistExt(f));
    var s := ScopeOf(f, c);
    var folders := Folders(f, c, fs);
    UnhookedProfile(f, arg, fs, production);
    NoDataHookKeepsDescriptors(s);
    FilesPerFolder(s, folders, production, folder);
    forall key | key in SrcOutput(s, folders, production)
      ensures exists x :: x in folders && x !in c.ignores.value && key == PlainKey(s, x, production)
    {
      KeysComeFromFolders(s, folders, production, key);
    }
  }

  /**
   * A development hook that always returns a falsy value removes the
   * `development` key when there is no result hook; `production` is what the
   * production block would build without it.
   */
  lemma VetoedProfileAbsent(f: Family, arg: ConfArg, fs: Listing)
    requires
      var h := Normalize(arg, Container(f), DistExt(f)).filters.value;
      && h.result.None?
      && h.development.Some? && (forall p :: h.development.value(p, f).None?)
    ensures GenerateFor(f, arg, fs).development.None?
    ensures
      var c := Normalize(arg, Container(f), DistExt(f));
      GenerateFor(f, arg, fs).production ==
        (if c.minEnabled.value then HookedProfile(f, c, Folders(f, c, fs), true) else None)
  {
    var c := Normalize(arg, Container(f), DistExt(f));
    var p := BaseProfile(f, c, Folders(f, c, fs), false);
    assert c.filters.value.development.value(p, f).None?;
  }

  /**
   * The result hook runs on every call for a known family, even when both
   * profiles are disabled and nothing was assembled, whatever other hooks
   * are set.
   */
  lemma ResultHookAlwaysRuns(f: Family, conf: Conf, fs: Listing, hook: Output -> Output)
    requires conf.filters.Some? && conf.filters.value.result == Some(hook)
    requires conf.devEnabled == Some(false) && conf.minEnabled == Some(false)
    ensures GenerateFor(f, ObjectValue(conf), fs) == hook(Output(None, None, map[]))
  {
  }

  /**
   * The result hook also runs when both profiles were built but their hooks
   * vetoed them: it then receives the empty object.
   */
  lemma ResultHookRunsWhenVetoed(f: Family, arg: ConfArg, fs: Listing, hook: Output -> Output)
    requires
      var h := Normalize(arg, Container(f), DistExt(f)).filters.value;
      && h.result == Some(hook)
      && h.development.Some? && (forall p :: h.development.value(p, f).None?)
      && h.production.Some? && (forall p :: h.production.value(p).None?)
    ensures GenerateFor(f, arg, fs) == hook(Output(None, None, map[]))
  {
    var c := Normalize(arg, Container(f), DistExt(f));
    var h := c.filters.value;
    assert h.development.value(BaseProfile(f, c, Folders(f, c, fs), false), f).None?;
    assert h.production.value(BaseProfile(f, c, Folders(f, c, fs), true)).None?;
  }

  /**
   * A caller-supplied `queue` is used as given, and the default queue only
   * when none is supplied (index.js:81-91); for a script family every input
   * is that queue templated with the module path.
   */
  lemma SuppliedQueueVerbatim(f: Family, arg: ConfArg, d: Descriptor)
    ensures
      var s := ScopeOf(f, Normalize(arg, Container(f), DistExt(f)));
      s.queue == (if Supplied(arg).queue.Some? then Supplied(arg).queue.value else DefaultQueue())
    ensures
      var s := ScopeOf(f, Normalize(arg, Container(f), DistExt(f)));
      IsScript(f) ==> InputFor(s, d) == Globs(Templated(s.queue, d.source + "/" + d.iname))
  {
  }

  /**
   * With the default roots the `./` of `./src/<container>` is stripped once:
   * inputs are read below `src/<container>` and outputs written below
   * `dist/<distExt>`, neither starting with `./`.
   */
  lemma DefaultRoots(f: Family, arg: ConfArg)
    requires Supplied(arg).source.None? && Supplied(arg).dist.None?
    ensures ScopeOf(f, Normalize(arg, Container(f), DistExt(f))).sourcePath == "src/" + Container(f)
    ensures ScopeOf(f, Normalize(arg, Container(f), DistExt(f))).distPath == "dist/" + DistExt(f)
    ensures !StartsWith("src/" + Container(f), "./") && !StartsWith("dist/" + DistExt(f), "./")
  {
    var c := Normalize(arg, Container(f), DistExt(f));
    assert c.source.value == "./" + ("src/" + Container(f));
    StripDotSlashOnce("src/" + Container(f));
    assert ("src/" + Container(f))[..2] == "sr";
    assert ("dist/" + DistExt(f))[..2] == "di";
  }

  /** A caller-supplied option survives into the profile when no hook rewrites it. */
  lemma CallerOptionSurvives(f: Family, arg: ConfArg, fs: Listing, production: bool, key: string)
    requires OnlyFoldersHook(Normalize(arg, Container(f), DistExt(f)).filters.value)
    requires key in CallerOptions(Normalize(arg, Container(f), DistExt(f)), production)
    ensures
      var out := GenerateFor(f, arg, fs);
      var p := if production then out.production else out.development;
      p.Some? ==>
        && key in p.value.options
        && Extends(CallerOptions(Normalize(arg, Container(f), DistExt(f)), production)[key], p.value.options[key])
  {
    var c := Normalize(arg, Container(f), DistExt(f));
    FillKeepsSupplied(CallerOptions(c, production), ProfileDefaults(f, production), key);
  }
}
