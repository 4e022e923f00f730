/**
 * The data model of the generator (index.js:33-47, 100-111, 133-136) and the
 * normalisation of the caller's configuration by `modifyConf`.
 */
module Config {
  import opened Wrappers
  import opened Values
  import opened Families

  /** Per-module descriptor handed to the `data` hook (index.js:100-111). */
  datatype Descriptor = Descriptor(iname: string, oname: string, source: string, dist: string, entry: string)

  /** The input of one output file: one entry path (style families) or an ordered glob list (script families). */
  datatype Input = Entry(path: string) | Globs(patterns: seq<string>)

  /** One profile of the result: `{options, files}`. */
  datatype Profile = Profile(options: Options, files: map<string, Input>)

  /**
   * The object `ga` returns: the optional `development` and `production` keys,
   * and any further keys a `result` hook adds. `extra` stands for the keys
   * other than those two, so a well-formed output never has `development` or
   * `production` in `extra`; the generator itself always leaves `extra` empty.
   */
  datatype Output = Output(development: Option<Profile>, production: Option<Profile>, extra: map<string, Value>)

  /**
   * `conf.filters`: each hook is optional; a hook result of None stands for a
   * falsy return. The `production` hook is called without the family
   * (index.js:195), the others with it.
   */
  datatype Hooks = Hooks(
    folders: Option<(seq<string>, Family) -> seq<string>>,
    data: Option<(Descriptor, Family) -> Option<Descriptor>>,
    development: Option<(Profile, Family) -> Option<Profile>>,
    production: Option<Profile -> Option<Profile>>,
    result: Option<Output -> Output>)

  const NoHooks: Hooks := Hooks(None, None, None, None, None)

  /** `conf.options`: caller-supplied options per profile (a falsy entry is None). */
  datatype Overrides = Overrides(development: Option<Options>, production: Option<Options>)

  /** The configuration object; a None field is an `undefined` property. */
  datatype Conf = Conf(
    source: Option<string>,
    dist: Option<string>,
    ignores: Option<seq<string>>,
    filters: Option<Hooks>,
    devEnabled: Option<bool>,
    minEnabled: Option<bool>,
    entry: Option<string>,
    queue: Option<seq<string>>,
    options: Option<Overrides>)

  const EmptyConf: Conf := Conf(None, None, None, None, None, None, None, None, None)

  /** The kinds of JavaScript value a caller can pass as `conf`. */
  datatype Primitive = Number | String | Boolean | BigInt | Symbol

  datatype ConfArg =
    | Undefined
    | Null
    | Scalar(kind: Primitive)
    | ArrayValue
    | FunctionValue
    | ObjectValue(conf: Conf)  // any non-null, non-array, non-function object; only its own fields are read

  /** `typeof arg`. */
  function TypeOf(arg: ConfArg): string {
    match arg
    case Undefined => "undefined"
    case Null => "object"
    case Scalar(kind) =>
      (match kind
       case Number => "number"
       case String => "string"
       case Boolean => "boolean"
       case BigInt => "bigint"
       case Symbol => "symbol")
    case ArrayValue => "object"
    case FunctionValue => "function"
    case ObjectValue(_) => "object"
  }

  /** `arg != null`: loose inequality, so false for both null and undefined. */
  predicate LooselyNonNull(arg: ConfArg) {
    !(arg.Null? || arg.Undefined?)
  }

  /** `isObject` (index.js:33-35). */
  predicate IsObject(arg: ConfArg) {
    LooselyNonNull(arg) && TypeOf(arg) == "object" && !arg.ArrayValue?
  }

  /**
   * The three tests of `isObject` accept exactly every non-null, non-array,
   * non-function object: plain objects, and equally `Date`, `Map` or class
   * instances, all of which `ObjectValue` stands for.
   */
  lemma IsObjectExactlyObjects(arg: ConfArg)
    ensures IsObject(arg) <==> arg.ObjectValue?
  {
  }

  /** What the caller supplied: a non-object configuration counts as `{}` (index.js:38). */
  function Supplied(arg: ConfArg): Conf {
    if IsObject(arg) then arg.conf else EmptyConf
  }

  function DefaultSource(srcContainer: string): string {
    "./src/" + srcContainer
  }

  function DefaultDist(distFileExtension: string): string {
    "dist/" + distFileExtension
  }

  const DefaultEntry: string := "index"

  /** Every field `modifyConf` defaults is defined. */
  ghost predicate Normalized(c: Conf) {
    && c.source.Some? && c.dist.Some? && c.ignores.Some? && c.filters.Some?
    && c.devEnabled.Some? && c.minEnabled.Some? && c.entry.Some?
  }

  /**
   * Every field the caller set is kept as it is, falsy values included, and the
   * fields `modifyConf` does not touch (`queue`, `options`) are carried over.
   */
  ghost predicate KeepsSupplied(given: Conf, c: Conf) {
    && (given.source.Some? ==> c.source == given.source)
    && (given.dist.Some? ==> c.dist == given.dist)
    && (given.ignores.Some? ==> c.ignores == given.ignores)
    && (given.filters.Some? ==> c.filters == given.filters)
    && (given.devEnabled.Some? ==> c.devEnabled == given.devEnabled)
    && (given.minEnabled.Some? ==> c.minEnabled == given.minEnabled)
    && (given.entry.Some? ==> c.entry == given.entry)
    && c.queue == given.queue
    && c.options == given.options
  }

  /** Every field the caller left undefined gets its default (index.js:39-45). */
  ghost predicate FillsUnset(given: Conf, c: Conf, srcContainer: string, distFileExtension: string) {
    && (given.source.None? ==> c.source == Some(DefaultSource(srcContainer)))
    && (given.dist.None? ==> c.dist == Some(DefaultDist(distFileExtension)))
    && (given.ignores.None? ==> c.ignores == Some([]))
    && (given.filters.None? ==> c.filters == Some(NoHooks))
    && (given.devEnabled.None? ==> c.devEnabled == Some(true))
    && (given.minEnabled.None? ==> c.minEnabled == Some(true))
    && (given.entry.None? ==> c.entry == Some(DefaultEntry))
  }

  /** The configuration `modifyConf` produces. */
  function Normalize(arg: ConfArg, srcContainer: string, distFileExtension: string): (c: Conf)
    ensures Normalized(c)
    ensures KeepsSupplied(Supplied(arg), c)
    ensures FillsUnset(Supplied(arg), c, srcContainer, distFileExtension)
  {
    var given := Supplied(arg);
    given.(
      source := Some(given.source.GetOr(DefaultSource(srcContainer))),
      dist := Some(given.dist.GetOr(DefaultDist(distFileExtension))),
      ignores := Some(given.ignores.GetOr([])),
      filters := Some(given.filters.GetOr(NoHooks)),
      devEnabled := Some(given.devEnabled.GetOr(true)),
      minEnabled := Some(given.minEnabled.GetOr(true)),
      entry := Some(given.entry.GetOr(DefaultEntry)))
  }

  /** Normalising a normalised configuration changes nothing. */
  lemma NormalizeIdempotent(arg: ConfArg, srcContainer: string, distFileExtension: string)
    ensures Normalize(ObjectValue(Normalize(arg, srcContainer, distFileExtension)), srcContainer, distFileExtension)
         == Normalize(arg, srcContainer, distFileExtension)
  {
  }

  /** `modifyConf` (index.js:37-47): replaces a non-object by `{}`, then fills undefined fields one by one. */
  method ModifyConf(arg: ConfArg, srcContainer: string, distFileExtension: string) returns (conf: Conf)
    ensures conf == Normalize(arg, srcContainer, distFileExtension)
  {
    conf := EmptyConf;
    if IsObject(arg) {
      conf := arg.conf;
    }
    if conf.source.None? { conf := conf.(source := Some(DefaultSource(srcContainer))); }
    if conf.dist.None? { conf := conf.(dist := Some(DefaultDist(distFileExtension))); }
    if conf.ignores.None? { conf := conf.(ignores := Some([])); }
    if conf.filters.None? { conf := conf.(filters := Some(NoHooks)); }
    if conf.devEnabled.None? { conf := conf.(devEnabled := Some(true)); }
    if conf.minEnabled.None? { conf := conf.(minEnabled := Some(true)); }
    if conf.entry.None? { conf := conf.(entry := Some(DefaultEntry)); }
  }
}
