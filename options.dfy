/**
 * Option defaulting per family and profile (index.js:140-155 for development,
 * index.js:174-191 for production): each default is written only to a key
 * that is still undefined, and for terser the `format` group is created when
 * absent and then defaulted key by key.
 */
module ProfileOptions {
  import opened Values
  import opened Families

  /** One "if undefined, assign" line of the source, at the top level or inside a group. */
  datatype Step =
    | SetDefault(key: string, value: Value)
    | SetNested(group: string, key: string, value: Value)

  /**
   * The default table, in the order the source writes it. A nested write needs
   * the group to be an object; a property write on a primitive is dropped in
   * sloppy mode, so the options stay as they were.
   */
  function ApplyStep(o: Options, st: Step): Options {
    match st
    case SetDefault(k, v) => if k in o then o else o[k := v]
    case SetNested(g, k, v) =>
      if g in o && o[g].Obj? && k !in o[g].fields then o[g := Obj(o[g].fields[k := v])] else o
  }

  /** The options after the steps have been applied in order. */
  function FillOptions(o: Options, steps: seq<Step>): Options
    decreases |steps|
  {
    if steps == [] then o else ApplyStep(FillOptions(o, steps[..|steps| - 1]), steps[|steps| - 1])
  }

  function ProfileDefaults(f: Family, production: bool): seq<Step> {
    match f
    case Less =>
      if production then
        [SetDefault("compress", Bool(true)), SetDefault("yuicompress", Bool(true)), SetDefault("optimization", Int(2))]
      else
        [SetDefault("optimization", Int(2))]
    case Sass =>
      if production then
        [SetDefault("style", Str("compressed")), SetDefault("noSourceMap", Bool(true))]
      else
        [SetDefault("style", Str("expanded"))]
    case Terser =>
      [SetDefault("mangle", Bool(production)), SetDefault("compress", Bool(production)),
       SetDefault("keep_classnames", Bool(true)), SetDefault("keep_fnames", Bool(true)),
       SetDefault("format", Obj(map[])), SetNested("format", "beautify", Bool(!production))]
    case Uglify =>
      [SetDefault("beautify", Bool(true)), SetDefault("mangle", Bool(false)), SetDefault("compress", Bool(false))]
  }

  /** The keys a step may create at the top level. */
  function StepKey(st: Step): string {
    match st
    case SetDefault(k, _) => k
    case SetNested(g, _, _) => g
  }

  /** `b` extends `a`: every key of `a` stays, with the same value or, for an object, a value that extends it. */
  ghost predicate Extends(a: Value, b: Value) {
    match a
    case Obj(m) => b.Obj? && m.Keys <= b.fields.Keys && forall k :: k in m ==> b.fields[k] == m[k]
    case _ => b == a
  }

  /**
   * Caller-supplied keys survive defaulting: a non-object keeps its value, an
   * object keeps every key it had; no key is removed.
   */
  lemma {:induction false} FillKeepsSupplied(o: Options, steps: seq<Step>, k: string)
    requires k in o
    ensures k in FillOptions(o, steps)
    ensures Extends(o[k], FillOptions(o, steps)[k])
    decreases |steps|
  {
    if steps != [] {
      var init := steps[..|steps| - 1];
      FillKeepsSupplied(o, init, k);
    }
  }

  /** Defaulting only adds keys named by its steps. */
  lemma {:induction false} FillKeys(o: Options, steps: seq<Step>)
    ensures o.Keys <= FillOptions(o, steps).Keys
    ensures forall k :: k in FillOptions(o, steps) && k !in o ==> exists i :: 0 <= i < |steps| && StepKey(steps[i]) == k
    decreases |steps|
  {
    if steps != [] {
      var init := steps[..|steps| - 1];
      FillKeys(o, init);
      forall k | k in FillOptions(o, steps) && k !in o
        ensures exists i :: 0 <= i < |steps| && StepKey(steps[i]) == k
      {
        if k in FillOptions(o, init) {
          var i :| 0 <= i < |init| && StepKey(init[i]) == k;
          assert steps[i] == init[i];
        } else {
          assert StepKey(steps[|steps| - 1]) == k;
        }
      }
    }
  }

  /** Running two tables one after the other is running their concatenation. */
  lemma {:induction false} FillAppend(o: Options, a: seq<Step>, b: seq<Step>)
    ensures FillOptions(o, a + b) == FillOptions(FillOptions(o, a), b)
    decreases |b|
  {
    if b == [] {
      assert a + b == a;
    } else {
      var init := b[..|b| - 1];
      FillAppend(o, a, init);
      assert (a + b)[..|a + b| - 1] == a + init;
      assert (a + b)[|a + b| - 1] == b[|b| - 1];
    }
  }

  /** A key no top-level step defaults stays undefined. */
  lemma {:induction false} FillAbsent(o: Options, steps: seq<Step>, k: string)
    requires k !in o
    requires forall j :: 0 <= j < |steps| ==> !(steps[j].SetDefault? && steps[j].key == k)
    ensures k !in FillOptions(o, steps)
    decreases |steps|
  {
    if steps != [] {
      var init := steps[..|steps| - 1];
      assert forall j :: 0 <= j < |init| ==> init[j] == steps[j];
      FillAbsent(o, init, k);
    }
  }

  /**
   * An undefined key gets the value of the first top-level default that names
   * it; a later nested default can only add to it.
   */
  lemma FillWritesDefault(o: Options, steps: seq<Step>, i: int)
    requires 0 <= i < |steps| && steps[i].SetDefault? && steps[i].key !in o
    requires forall j :: 0 <= j < i ==> !(steps[j].SetDefault? && steps[j].key == steps[i].key)
    ensures steps[i].key in FillOptions(o, steps)
    ensures Extends(steps[i].value, FillOptions(o, steps)[steps[i].key])
  {
    var k := steps[i].key;
    var before := steps[..i];
    assert forall j :: 0 <= j < |before| ==> before[j] == steps[j];
    FillAbsent(o, before, k);
    FillPrefix(o, steps, i);
    var mid := FillOptions(o, steps[..i + 1]);
    assert mid == FillOptions(o, before)[k := steps[i].value];
    FillKeepsSupplied(mid, steps[i + 1..], k);
    FillAppend(o, steps[..i + 1], steps[i + 1..]);
    assert steps[..i + 1] + steps[i + 1..] == steps;
  }

  /**
   * Terser's nested default: when `format` is undefined, or an object without
   * `beautify`, the filled options hold a `format` object whose `beautify` is
   * the opposite of the profile's production flag, beside every key the
   * caller's `format` already had.
   */
  lemma TerserFormatBeautify(o: Options, production: bool)
    requires "format" !in o || (o["format"].Obj? && "beautify" !in o["format"].fields)
    ensures "format" in FillOptions(o, ProfileDefaults(Terser, production))
    ensures
      var g := FillOptions(o, ProfileDefaults(Terser, production))["format"];
      g.Obj? && "beautify" in g.fields && g.fields["beautify"] == Bool(!production)
    ensures "format" in o ==>
      var g := FillOptions(o, ProfileDefaults(Terser, production))["format"];
      forall k :: k in o["format"].fields ==> k in g.fields && g.fields[k] == o["format"].fields[k]
  {
    var steps := ProfileDefaults(Terser, production);
    assert steps[..0] == [];
    FillPrefix(o, steps, 0);
    FillPrefix(o, steps, 1);
    FillPrefix(o, steps, 2);
    FillPrefix(o, steps, 3);
    FillPrefix(o, steps, 4);
    var mid := FillOptions(o, steps[..5]);
    assert "format" in mid && mid["format"] == (if "format" in o then o["format"] else Obj(map[]));
    FillPrefix(o, steps, 5);
    assert steps[..6] == steps;
  }

  /** A step has nothing left to do on `o`, and no later step can give it work again. */
  ghost predicate Settled(o: Options, st: Step) {
    match st
    case SetDefault(k, _) => k in o
    case SetNested(g, k, _) => g in o && (o[g].Obj? ==> k in o[g].fields)
  }

  lemma SettledStable(o: Options, a: Step, b: Step)
    requires Settled(o, a)
    ensures Settled(ApplyStep(o, b), a)
  {
  }

  /** Every nested default comes after a top-level default that creates its group, as for `format`. */
  ghost predicate GroupsCreatedFirst(steps: seq<Step>) {
    forall j :: 0 <= j < |steps| && steps[j].SetNested? ==>
      exists i :: 0 <= i < j && steps[i].SetDefault? && steps[i].key == steps[j].group
  }

  lemma TableGroupsCreatedFirst(f: Family, production: bool)
    ensures GroupsCreatedFirst(ProfileDefaults(f, production))
  {
    var steps := ProfileDefaults(f, production);
    if f == Terser {
      assert steps[4].SetDefault? && steps[4].key == "format";
    }
  }

  /** After the whole table has run, every one of its steps is settled. */
  lemma {:induction false} AllSettled(o: Options, steps: seq<Step>, j: int)
    requires GroupsCreatedFirst(steps)
    requires 0 <= j < |steps|
    ensures Settled(FillOptions(o, steps), steps[j])
    decreases |steps|
  {
    var init := steps[..|steps| - 1];
    var last := steps[|steps| - 1];
    assert GroupsCreatedFirst(init) by {
      forall j' | 0 <= j' < |init| && init[j'].SetNested?
        ensures exists i :: 0 <= i < j' && init[i].SetDefault? && init[i].key == init[j'].group
      {
        assert init[j'] == steps[j'];
        var i :| 0 <= i < j' && steps[i].SetDefault? && steps[i].key == steps[j'].group;
        assert init[i] == steps[i];
      }
    }
    if j < |steps| - 1 {
      assert init[j] == steps[j];
      AllSettled(o, init, j);
      SettledStable(FillOptions(o, init), steps[j], last);
    } else if last.SetNested? {
      var i :| 0 <= i < j && steps[i].SetDefault? && steps[i].key == last.group;
      assert init[i] == steps[i];
      AllSettled(o, init, i);
    }
  }

  /** A settled step changes nothing. */
  lemma SettledIsFixed(o: Options, st: Step)
    requires Settled(o, st)
    ensures ApplyStep(o, st) == o
  {
  }

  /** Running a table that creates its groups first over options it already filled changes nothing. */
  lemma {:induction false} FillIdempotent(o: Options, steps: seq<Step>)
    requires GroupsCreatedFirst(steps)
    ensures FillOptions(FillOptions(o, steps), steps) == FillOptions(o, steps)
  {
    FilledIsFixed(o, steps, |steps|);
    assert steps[..|steps|] == steps;
  }

  lemma {:induction false} FilledIsFixed(o: Options, steps: seq<Step>, i: int)
    requires GroupsCreatedFirst(steps)
    requires 0 <= i <= |steps|
    ensures FillOptions(FillOptions(o, steps), steps[..i]) == FillOptions(o, steps)
    decreases i
  {
    if i > 0 {
      FilledIsFixed(o, steps, i - 1);
      assert steps[..i][..i - 1] == steps[..i - 1];
      assert steps[..i][i - 1] == steps[i - 1];
      AllSettled(o, steps, i - 1);
      SettledIsFixed(FillOptions(o, steps), steps[i - 1]);
    }
  }

  /** The table's first `k + 1` steps are its first `k` steps and then step `k`. */
  lemma FillPrefix(o: Options, steps: seq<Step>, k: int)
    requires 0 <= k < |steps|
    ensures FillOptions(o, steps[..k + 1]) == ApplyStep(FillOptions(o, steps[..k]), steps[k])
  {
    assert steps[..k + 1][..k] == steps[..k];
  }

  /** One `if (options.key === undefined) options.key = value` line. */
  method SetIfUndefined(options: Options, key: string, value: Value) returns (r: Options)
    ensures r == ApplyStep(options, SetDefault(key, value))
  {
    r := options;
    if key !in r {
      r := r[key := value];
    }
  }

  /**
   * One `if (options.group.key === undefined) options.group.key = value` line;
   * the group exists because the line before it creates it when absent.
   */
  method SetNestedIfUndefined(options: Options, group: string, key: string, value: Value) returns (r: Options)
    requires group in options
    ensures r == ApplyStep(options, SetNested(group, key, value))
  {
    r := options;
    if r[group].Obj? && key !in r[group].fields {
      r := r[group := Obj(r[group].fields[key := value])];
    }
  }

  /** Development defaulting (index.js:140-155): the block of the caller's family. */
  method DefaultDevelopmentOptions(f: Family, given: Options) returns (options: Options)
    ensures options == FillOptions(given, ProfileDefaults(f, false))
  {
    match f
    case Less => options := LessDevelopmentDefaults(given);
    case Sass => options := SassDevelopmentDefaults(given);
    case Terser => options := TerserDefaults(given, false);
    case Uglify => options := UglifyDefaults(given, false);
  }

  /** Production defaulting (index.js:174-192): the block of the caller's family. */
  method DefaultProductionOptions(f: Family, given: Options) returns (options: Options)
    ensures options == FillOptions(given, ProfileDefaults(f, true))
  {
    match f
    case Less => options := LessProductionDefaults(given);
    case Sass => options := SassProductionDefaults(given);
    case Terser => options := TerserDefaults(given, true);
    case Uglify => options := UglifyDefaults(given, true);
  }

  method LessDevelopmentDefaults(given: Options) returns (options: Options)
    ensures options == FillOptions(given, ProfileDefaults(Less, false))
  {
    ghost var steps := ProfileDefaults(Less, false);
    assert steps[..0] == [];
    options := SetIfUndefined(given, "optimization", Int(2));
    FillPrefix(given, steps, 0);
    assert steps[..1] == steps;
  }

  method LessProductionDefaults(given: Options) returns (options: Options)
    ensures options == FillOptions(given, ProfileDefaults(Less, true))
  {
    ghost var steps := ProfileDefaults(Less, true);
    assert steps[..0] == [];
    options := SetIfUndefined(given, "compress", Bool(true));
    FillPrefix(given, steps, 0);
    options := SetIfUndefined(options, "yuicompress", Bool(true));
    FillPrefix(given, steps, 1);
    options := SetIfUndefined(options, "optimization", Int(2));
    FillPrefix(given, steps, 2);
    assert steps[..3] == steps;
  }

  method SassDevelopmentDefaults(given: Options) returns (options: Options)
    ensures options == FillOptions(given, ProfileDefaults(Sass, false))
  {
    ghost var steps := ProfileDefaults(Sass, false);
    assert steps[..0] == [];
    options := SetIfUndefined(given, "style", Str("expanded"));
    FillPrefix(given, steps, 0);
    assert steps[..1] == steps;
  }

  method SassProductionDefaults(given: Options) returns (options: Options)
    ensures options == FillOptions(given, ProfileDefaults(Sass, true))
  {
    ghost var steps := ProfileDefaults(Sass, true);
    assert steps[..0] == [];
    options := SetIfUndefined(given, "style", Str("compressed"));
    FillPrefix(given, steps, 0);
    options := SetIfUndefined(options, "noSourceMap", Bool(true));
    FillPrefix(given, steps, 1);
    assert steps[..2] == steps;
  }

  /**
   * The terser block; the two profiles differ only in `mangle`, `compress`
   * (false in development, true in production) and `format.beautify` (the
   * opposite).
   */
  method TerserDefaults(given: Options, production: bool) returns (options: Options)
    ensures options == FillOptions(given, ProfileDefaults(Terser, production))
  {
    ghost var steps := ProfileDefaults(Terser, production);
    assert steps[..0] == [];
    options := SetIfUndefined(given, "mangle", Bool(production));
    FillPrefix(given, steps, 0);
    options := SetIfUndefined(options, "compress", Bool(production));
    FillPrefix(given, steps, 1);
    options := SetIfUndefined(options, "keep_classnames", Bool(true));
    FillPrefix(given, steps, 2);
    options := SetIfUndefined(options, "keep_fnames", Bool(true));
    FillPrefix(given, steps, 3);
    options := SetIfUndefined(options, "format", Obj(map[]));
    FillPrefix(given, steps, 4);
    options := SetNestedIfUndefined(options, "format", "beautify", Bool(!production));
    FillPrefix(given, steps, 5);
    assert steps[..6] == steps;
  }

  /** The uglify block, the same in both profiles. */
  method UglifyDefaults(given: Options, production: bool) returns (options: Options)
    ensures options == FillOptions(given, ProfileDefaults(Uglify, production))
  {
    ghost var steps := ProfileDefaults(Uglify, production);
    assert steps[..0] == [];
    options := SetIfUndefined(given, "beautify", Bool(true));
    FillPrefix(given, steps, 0);
    options := SetIfUndefined(options, "mangle", Bool(false));
    FillPrefix(given, steps, 1);
    options := SetIfUndefined(options, "compress", Bool(false));
    FillPrefix(given, steps, 2);
    assert steps[..3] == steps;
  }
}
