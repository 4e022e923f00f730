# grunt-auto `ga`: a Dafny model

grunt-auto generates Grunt task configurations for four processors: less, sass, terser and uglify. Its generator `ga(processorType, conf)` works in six steps:

- It lower-cases the processor name and returns null for anything outside the four families.
- It normalises the caller's configuration (`modifyConf`).
- It lists the module folders under the source root and passes them through the `folders` hook.
- For each enabled profile (development, production) it builds a files map from output path to input. A style family maps each output to one entry file. A script family maps it to an ordered glob list made from the queue template.
- It fills the profile's options with per-family defaults, each written only where the key is undefined.
- It applies the profile hook and finally the `result` hook.

The model follows the source's own split between imperative code and expressions:

- **Imperative code becomes methods**, each proved equal to a specification function:
  - `inArray` is a loop;
  - `modifyConf` fills the configuration field by field;
  - `generateSrcOutput` is a loop that inserts into the files map and rewrites a fresh array copy of the queue in place;
  - the option blocks assign key by key;
  - `ga` itself runs step by step.
- **The expressions stay functions.** These are:
  - `isObject`;
  - the family/extension table;
  - the `./` strip;
  - the specification functions `Normalize`, `Templated`, `SrcOutput`, `FillOptions`, `GenerateFor` and `Generate`.
- **The file system is a parameter.** `getFolders` becomes a `Listing` function passed in. It is read at the normalised `conf.source`, before the `./` strip, as the source does.
- **Hooks are optional total functions.** A falsy result of the `data`, `development` or `production` hook is `None`. The `result` hook always returns an object here (see Left out).

Modules:

| file | module | contents |
|---|---|---|
| wrappers.dfy | `Wrappers` | `Option` |
| values.dfy | `Values` | option values (`Bool`, `Int`, `Str`, nested `Obj`) |
| utils.dfy | `Utils` | `inArray`, ASCII `toLowerCase`, `startsWith`, first-occurrence `replace`, the `./` strip |
| families.dfy | `Families` | the four families and their extensions and containers |
| config.dfy | `Config` | descriptors, profiles, output, hooks, the configuration, `isObject`, `modifyConf` |
| sources.dfy | `Sources` | the default queue, templating, `generateSrcOutput` |
| options.dfy | `ProfileOptions` | the per-family default tables and the defaulting blocks |
| generator.dfy | `Generator` | `ga`, its profile blocks and the exported wrappers |
| scenarios.dfy | `Scenarios` | the test-suite scenarios as lemmas, on the fixture folders |

Behaviour of index.js worth noting:

- An unknown processor name gives null (index.js:61-63).
- When a `result` hook is set, it runs on every call for a known family, including when neither profile was produced, whether disabled or vetoed by its hook (index.js:203-205).
- The `ignores` list is checked against each folder of the list the `folders` hook returned (index.js:71-75, 98).
- The `production` hook receives no family argument (index.js:195).

## Model

| member | source | states |
|---|---|---|
| Utils.InArray | index.js:23-31 | the index loop returns true exactly when the value occurs in the array (`===` as Dafny equality) |
| Utils.LowerAsciiIdempotent | index.js:60 | lower-casing twice is lower-casing once, so `ga('LESS')` and `ga('less')` select the same family |
| Utils.ReplaceFirstSplices | index.js:122 | `replace` with a string pattern cuts out exactly the first occurrence and puts the replacement there, everything before and after unchanged |
| Utils.ReplaceFirstAbsent | index.js:122 | `replace` leaves a string without the pattern unchanged |
| Utils.StripDotSlash | index.js:77-78 | a path starting with `./` loses exactly those two characters; any other path is returned as is |
| Utils.StripDotSlashOnce | index.js:77-78 | the strip removes one `./` only: `././x` becomes `./x` |
| Config.IsObjectExactlyObjects | index.js:33-35 | `val != null && typeof val === 'object' && !Array.isArray(val)` holds exactly for every non-null, non-array, non-function object (plain objects, but also `Date`, `Map` or class instances, which behave the same here): not undefined, null, primitives, arrays or functions |
| Config.Normalize | index.js:37-47 | after normalisation every defaulted field is defined. A field the caller set is kept, `false` and `''` included. An undefined field gets its default: `./src/<container>`, `dist/<distExt>`, `[]`, `{}`, `true`, `true`, `index`. `queue` and `options` pass through. A non-object counts as `{}` |
| Config.NormalizeIdempotent | index.js:37-47 | normalising an already normalised configuration changes nothing |
| Config.ModifyConf | index.js:37-47 | the field-by-field `modifyConf` produces exactly `Normalize` |
| Families.FamilyOf | index.js:60-63 | a family is found exactly when the lower-cased name is one of less, sass, terser, uglify, and then it is the family of that name |
| Families.FamilyOfName | index.js:60-61 | any spelling that lower-cases to a family's name selects that family |
| Families.ExtensionTable | index.js:65-67 | source extension is less/scss/js and is `js` exactly for terser and uglify; output extension is `css`, or `js` for script families; container is `js` for script families and the family name otherwise |
| Sources.TemplateQueue | index.js:119-123 | the fresh copy rewritten element by element equals `Templated`: same length and order, each element with its first `%P%` replaced; the input queue is a value and is untouched |
| Sources.TemplatedSplices | index.js:121-123 | each templated pattern is its queue element with the first `%P%` replaced by `<source>/<iname>` |
| Sources.TemplatedKeepsPlain | index.js:121-123 | a queue element without `%P%` is copied unchanged |
| Sources.DefaultQueueTemplated | index.js:81-91 | with the default queue the glob list has the eight buckets in order (polyfill, addon, config.js, jquery, functions, classes, index.js, runners), each behind the module path |
| Sources.GenerateSrcOutput | index.js:93-129 | the loop over the folders builds exactly `SrcOutput`. Ignored folders are skipped before the `data` hook. A falsy hook result skips the folder. The key is `<dist>/<oname>[.min].<distExt>`. A later write to the same key wins |
| Sources.SrcOutputKeys | index.js:96-118 | a key is in the files map exactly when some listed folder is neither ignored nor vetoed by the `data` hook and its final descriptor produces that key |
| Sources.SrcOutputValue | index.js:118-126 | the value under a folder's key is that folder's input (entry path or templated globs) unless a later folder writes the same key |
| Sources.PlainKeyInjective | index.js:118 | different folder names with unchanged descriptors give different output keys |
| Sources.NoDataHookKeepsDescriptors | index.js:98-116 | without a `data` hook every folder keeps its descriptor, and exactly the ignored folders are dropped |
| Sources.FilesPerFolder | index.js:96-126 | when the hook keeps descriptors: a folder's plain key is present exactly when the folder is listed and neither ignored nor vetoed. Its value is `<source>/<iname>/<entry>.<srcExt>` for style families and the templated queue for script families |
| Sources.KeysComeFromFolders | index.js:96-118 | when the hook keeps descriptors, every key belongs to a listed folder that is neither ignored nor vetoed |
| ProfileOptions.SetIfUndefined | index.js:141 | one top-level line writes its default exactly when the key is undefined |
| ProfileOptions.SetNestedIfUndefined | index.js:150 | the `format.beautify` line writes only into an object group whose key is undefined |
| ProfileOptions.FillKeepsSupplied | index.js:140-155 | defaulting never removes a key nor changes a supplied value; a supplied object keeps all its keys |
| ProfileOptions.FillKeys | index.js:140-155 | defaulting adds only keys named by the table |
| ProfileOptions.FillWritesDefault | index.js:174-192 | an undefined key receives the value of the first default that names it; a later nested default may only add to it |
| ProfileOptions.TerserFormatBeautify | index.js:149-150 | when `format` is undefined or an object without `beautify`, terser's filled options hold a `format` object with `beautify` the opposite of production (false at line 187), beside every key the caller's `format` already had |
| ProfileOptions.TableGroupsCreatedFirst | index.js:149-150 | in every table the `format` group is defaulted before `format.beautify` |
| ProfileOptions.FillIdempotent | index.js:140-155 | running a table whose groups come first over options it already filled changes nothing |
| ProfileOptions.DefaultDevelopmentOptions | index.js:140-155 | the development block for each family equals the table fill `FillOptions(given, ProfileDefaults(f, false))` |
| ProfileOptions.DefaultProductionOptions | index.js:174-192 | the production block for each family equals `FillOptions(given, ProfileDefaults(f, true))` |
| ProfileOptions.LessDevelopmentDefaults | index.js:140-141 | less development: `optimization = 2` if undefined |
| ProfileOptions.LessProductionDefaults | index.js:174-177 | less production: `compress`, `yuicompress`, `optimization` in that order |
| ProfileOptions.SassDevelopmentDefaults | index.js:142-143 | sass development: `style = 'expanded'` |
| ProfileOptions.SassProductionDefaults | index.js:178-180 | sass production: `style = 'compressed'`, `noSourceMap = true` |
| ProfileOptions.TerserDefaults | index.js:144-187 | terser, development lines 144-150 and production lines 181-187: `mangle`, `compress` (false in development, true in production), `keep_classnames`, `keep_fnames`, `format = {}`, then `format.beautify` (the opposite of production) |
| ProfileOptions.UglifyDefaults | index.js:151-191 | uglify, development lines 151-154 and production lines 188-191: `beautify = true`, `mangle = false`, `compress = false` in both profiles |
| Generator.DevelopmentBlock | index.js:132-163 | the block builds the files map without `.min`, takes a truthy caller options object, defaults it, and applies the development hook with the family. The result is `HookedProfile(.., false)` |
| Generator.ProductionBlock | index.js:166-200 | the same for production with `.min` keys; the hook is called without the family |
| Generator.ProcessorFamily | index.js:60-63 | lower-casing plus the membership test select exactly `FamilyOf` |
| Generator.Ga | index.js:59-207 | `ga` step by step equals `Generate`. It is null for an unknown name. Otherwise it normalises, lists and filters folders, strips `./`, picks the queue, assembles the enabled profiles and applies the result hook |
| Generator.GaLess | index.js:212 | `gaLess(conf)` is `ga('less', conf)` and never null |
| Generator.GaSass | index.js:213 | `gaSass(conf)` is `ga('sass', conf)` and never null |
| Generator.GaTerser | index.js:214 | `gaTerser(conf)` is `ga('terser', conf)` and never null |
| Generator.GaUglify | index.js:215 | `gaUglify(conf)` is `ga('uglify', conf)` and never null |
| Generator.GenerateNullIffUnknown | index.js:60-63 | `ga` returns null exactly for names outside the four families after lower-casing; `LESS` and `less` give the same result |
| Generator.ProfilePresence | index.js:132-200 | without a result hook, a profile key is present exactly when the profile is enabled and either it has no hook or its hook returned a truthy value for the built profile. With no hook the key holds the built profile. With a hook it holds the hook's return value; the development hook also receives the family, the production hook does not. No other key appears |
| Generator.UnhookedProfile | index.js:132-200 | without profile or result hooks an enabled profile is the built profile (defaulted options, files map) and a disabled one is absent |
| Generator.ProfilesWithoutHooks | index.js:93-200 | without data, profile or result hooks: each enabled profile has one entry per listed, non-ignored folder and nothing else. Each entry holds that folder's input. The options are the caller's options with the family defaults filled in |
| Generator.VetoedProfileAbsent | index.js:157-162 | a development hook that always returns a falsy value removes the `development` key and leaves `production` as it would otherwise be |
| Generator.ResultHookAlwaysRuns | index.js:203-205 | with both profiles disabled the result hook still runs, on the empty object, whatever other hooks are set |
| Generator.ResultHookRunsWhenVetoed | index.js:203-205 | when both profile hooks veto every profile, the result hook still runs, on the empty object |
| Generator.SuppliedQueueVerbatim | index.js:81-91 | a supplied `queue` is used as given and the default eight-bucket queue only when none is supplied; for terser and uglify every input is that queue templated with the module path |
| Generator.DefaultRoots | index.js:77-78 | with default roots, inputs are read below `src/<container>` and outputs written below `dist/<distExt>`, neither starting with `./` |
| Generator.CallerOptionSurvives | index.js:137-138 | a caller-supplied option key survives into the profile unchanged, or extended if it is an object |
| Scenarios.LessOptionsFromEmpty | test/less.js:5-20 | less defaults from empty options: `{optimization: 2}` and `{compress, yuicompress, optimization}` |
| Scenarios.SassOptionsFromEmpty | index.js:142-180 | sass defaults from empty options, both profiles: `{style: 'expanded'}` (line 143) and `{style: 'compressed', noSourceMap: true}` (lines 179-180) |
| Scenarios.UglifyOptionsFromEmpty | index.js:151-191 | uglify defaults from empty options, both profiles: `{beautify: true, mangle: false, compress: false}` (lines 152-154 and 189-191) |
| Scenarios.TerserOptionsFromEmpty | test/terser.js:7-27 | terser defaults from empty options, with `format.beautify` the opposite of production |
| Scenarios.LessDefault | test/less.js:4-35 | `ga('less')` on the fixture tree gives both profiles with `dist/css/style-N[.min].css` mapped to `src/less/style-N/index.less` |
| Scenarios.LessOnlyProduction | test/less.js:39-47 | `devEnabled: false` removes only the `development` key |
| Scenarios.LessOnlyDevelopment | test/less.js:51-59 | `minEnabled: false` removes only the `production` key |
| Scenarios.LessIgnoresStyle2 | test/less.js:63-72 | ignoring `style-2` removes its entries from both profiles |
| Scenarios.LessCustomRoots | test/less.js:76-102 | custom source and dist roots are used verbatim for input and output paths |
| Scenarios.LessEntryHook | test/less.js:106-122 | a `data` hook that sets `entry` to the folder name changes the entry file |
| Scenarios.LessDashlessHook | test/less.js:126-146 | a `data` hook that drops dashes from `oname` renames the output keys |
| Scenarios.LessResultHook | test/less.js:150-163 | a `result` hook that adds `test: 'Hi!'` yields the default output plus that key |
| Scenarios.TerserDefault | test/terser.js:4-82 | `ga('terser')` gives both profiles. Each script folder is mapped to the eight default globs rooted at `src/js/<folder>` |

## Left out

- `getFolders` (index.js:13-21) reads the file system. The folder listing is a function parameter (`Listing`); an absent directory is a listing that returns the empty sequence.
- Object aliasing is not modelled: configuration, options and descriptors are values. `modifyConf` mutates the caller's object. `development.options = conf.options.development` (index.js:138, 172) makes defaulting write into the caller's own options object. Two observable consequences are not captured. First, one options object passed as both `conf.options.development` and `conf.options.production` is defaulted twice in place: the production block sees the development defaults (terser production keeps `mangle: false`), and `development.options` shows the production additions. Second, a `conf` reused across calls (`gaTerser(conf)` then `gaLess(conf)`) already holds the first call's `source` and `dist`, so the second call reads `./src/js` and writes to `dist/js`.
- Hooks are total functions of their arguments. A hook that throws is not modelled. Nor is one that mutates its argument: the test hooks do, and only their returned value is modelled. `Generator.Ga` calls the `data` hook once per profile, as the source does; with pure hooks that is not observable.
- `structuredClone` (index.js:120) is a fresh array copy of a sequence value; deep cloning of non-string elements is not modelled.
- Utils.ReplaceFirst treats the replacement literally. JavaScript's special `$` patterns in a replacement string (`$&`, `$$`, …) are not modelled. They matter only if a source path contains `$`.
- Utils.LowerAscii lower-cases ASCII letters only; the rest of Unicode case mapping in `toLowerCase` is not modelled.
- Truthiness is reduced to `Option`. A falsy `conf.options.development`/`production`, and a falsy hook result, are `None`. A caller option set to a falsy non-object is not distinguished from an absent one.
- A `format` option set to `null` makes the source throw at index.js:150/187; option values have no null here, so that path is not modelled. A non-object `format` is left unchanged, as a property write on a primitive is in sloppy mode.
- Property enumeration order of the JavaScript objects is not modelled: files and options are maps.
- Generator.GenerateNullIffUnknown, Generator.GaLess, Generator.GaSass, Generator.GaTerser, Generator.GaUglify: the `result` hook is typed `Output -> Output`, so it always returns an object. In the source `ga` returns whatever that hook returns (index.js:203-206), so a hook returning `null` makes `ga` and the exported wrappers return null for a known family. "Null only for an unknown name" and "never null" hold only under this restriction.
- `conf` values of the wrong type (a string `source`, a non-array `ignores`) are excluded by the types of `Conf`.
