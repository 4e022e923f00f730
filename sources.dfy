/**
 * `generateSrcOutput` (index.js:93-129) and the glob queue (index.js:81-91):
 * for each folder that is not ignored and not vetoed by the `data` hook, one
 * entry from an output path to its input.
 */
module Sources {
  import opened Wrappers
  import opened Utils
  import opened Families
  import opened Config

  /** The placeholder each queue element carries for the module's source folder. */
  const Placeholder: string := "%P%"

  /**
   * The eight buckets of the default queue, in the order the bundle needs them:
   * polyfills, embedded libraries, the config file, jQuery add-ons, functions,
   * classes, the index file and the runners.
   */
  const QueueBuckets: seq<string> := [
    "/polyfill/**/*.js",
    "/addon/**/*.js",
    "/config.js",
    "/jquery/**/*.js",
    "/functions/**/*.js",
    "/classes/**/*.js",
    "/index.js",
    "/runners/**/*.js"
  ]

  /** The default queue (index.js:82-91): each bucket behind the placeholder. */
  function DefaultQueue(): seq<string> {
    seq(|QueueBuckets|, i requires 0 <= i < |QueueBuckets| => Placeholder + QueueBuckets[i])
  }

  /** Everything `generateSrcOutput` reads from the enclosing `ga` call. */
  datatype Scope = Scope(
    family: Family,
    srcExt: string,
    distExt: string,
    ignores: seq<string>,
    data: Option<(Descriptor, Family) -> Option<Descriptor>>,
    sourcePath: string,
    distPath: string,
    entry: string,
    queue: seq<string>)

  /** The queue with the first placeholder of each element replaced by the module path. */
  function Templated(queue: seq<string>, modulePath: string): seq<string> {
    seq(|queue|, i requires 0 <= i < |queue| => ReplaceFirst(queue[i], Placeholder, modulePath))
  }

  /**
   * The copy-and-rewrite of index.js:120-123: a fresh copy of the queue
   * (`structuredClone`) is rewritten element by element in place.
   */
  method TemplateQueue(queue: seq<string>, modulePath: string) returns (globs: seq<string>)
    ensures globs == Templated(queue, modulePath)
  {
    var copy := new string[|queue|](i requires 0 <= i < |queue| => queue[i]);
    for i := 0 to copy.Length
      invariant forall j :: 0 <= j < i ==> copy[j] == ReplaceFirst(queue[j], Placeholder, modulePath)
      invariant forall j :: i <= j < copy.Length ==> copy[j] == queue[j]
    {
      copy[i] := ReplaceFirst(copy[i], Placeholder, modulePath);
    }
    globs := copy[..];
  }

  /**
   * Each templated pattern is its queue element with the first placeholder
   * spliced out for the module path; an element without a placeholder is
   * kept as it is.
   */
  lemma TemplatedSplices(queue: seq<string>, modulePath: string, i: int, p: int)
    requires 0 <= i < |queue| && FirstOccurrence(queue[i], Placeholder, p)
    ensures Templated(queue, modulePath)[i] == queue[i][..p] + modulePath + queue[i][p + |Placeholder|..]
  {
    ReplaceFirstSplices(queue[i], Placeholder, modulePath, p);
  }

  lemma TemplatedKeepsPlain(queue: seq<string>, modulePath: string, i: int)
    requires 0 <= i < |queue| && forall p :: !OccursAt(queue[i], Placeholder, p)
    ensures Templated(queue, modulePath)[i] == queue[i]
  {
    ReplaceFirstAbsent(queue[i], Placeholder, modulePath);
  }

  /** With the default queue every pattern is the module path followed by its bucket, in bucket order. */
  lemma DefaultQueueTemplated(modulePath: string)
    ensures |Templated(DefaultQueue(), modulePath)| == |QueueBuckets|
    ensures forall i :: 0 <= i < |QueueBuckets| ==> Templated(DefaultQueue(), modulePath)[i] == modulePath + QueueBuckets[i]
  {
    forall i | 0 <= i < |QueueBuckets|
      ensures Templated(DefaultQueue(), modulePath)[i] == modulePath + QueueBuckets[i]
    {
      ReplaceFirstLeading(Placeholder, QueueBuckets[i], modulePath);
    }
  }

  /** The descriptor built for a folder before the `data` hook runs (index.js:100-111). */
  function Describe(s: Scope, folder: string): Descriptor {
    Descriptor(folder, folder, s.sourcePath, s.distPath, s.entry)
  }

  /** The descriptor a folder ends up with, or None when it is ignored or the hook vetoes it. */
  function Resolve(s: Scope, folder: string): Option<Descriptor> {
    if folder in s.ignores then None
    else match s.data
      case None => Some(Describe(s, folder))
      case Some(hook) => hook(Describe(s, folder), s.family)
  }

  function MinSuffix(isMin: bool): string {
    if isMin then ".min" else ""
  }

  /** `<dist>/<oname>[.min].<distExt>` (index.js:118). */
  function OutputPath(d: Descriptor, isMin: bool, distExt: string): string {
    d.dist + "/" + d.oname + MinSuffix(isMin) + "." + distExt
  }

  /** The input for a descriptor (index.js:119-126): the templated queue or the entry file. */
  function InputFor(s: Scope, d: Descriptor): Input {
    if s.srcExt == "js" then Globs(Templated(s.queue, d.source + "/" + d.iname))
    else Entry(d.source + "/" + d.iname + "/" + d.entry + "." + s.srcExt)
  }

  /** The files map after the folders have been visited in order; a later key overwrites an earlier one. */
  function SrcOutput(s: Scope, folders: seq<string>, isMin: bool): map<string, Input>
    decreases |folders|
  {
    if folders == [] then map[]
    else
      var files := SrcOutput(s, folders[..|folders| - 1], isMin);
      match Resolve(s, folders[|folders| - 1])
      case None => files
      case Some(d) => files[OutputPath(d, isMin, s.distExt) := InputFor(s, d)]
  }

  /** `generateSrcOutput(isMin)`. */
  method GenerateSrcOutput(s: Scope, folders: seq<string>, isMin: bool) returns (files: map<string, Input>)
    ensures files == SrcOutput(s, folders, isMin)
  {
    files := map[];
    for i := 0 to |folders|
      invariant files == SrcOutput(s, folders[..i], isMin)
    {
      assert folders[..i + 1][..i] == folders[..i];
      var ignored := InArray(folders[i], s.ignores);
      if ignored {
        continue;
      }
      var data := Some(Descriptor(folders[i], folders[i], s.sourcePath, s.distPath, s.entry));
      if s.data.Some? {
        data := s.data.value(data.value, s.family);
      }
      if data.None? {
        continue;
      }
      var d := data.value;
      var fileDistPath := d.dist + "/" + d.oname + (if isMin then ".min" else "") + "." + s.distExt;
      if s.srcExt == "js" {
        var globs := TemplateQueue(s.queue, d.source + "/" + d.iname);
        files := files[fileDistPath := Globs(globs)];
      } else {
        files := files[fileDistPath := Entry(d.source + "/" + d.iname + "/" + d.entry + "." + s.srcExt)];
      }
    }
    assert folders[..|folders|] == folders;
  }

  /** Folder `folder` contributes the key `key`. */
  ghost predicate Emits(s: Scope, folder: string, isMin: bool, key: string) {
    Resolve(s, folder).Some? && OutputPath(Resolve(s, folder).value, isMin, s.distExt) == key
  }

  /**
   * A key is in the files map exactly when some folder that is neither ignored
   * nor vetoed by the `data` hook produces it.
   */
  lemma {:induction false} SrcOutputKeys(s: Scope, folders: seq<string>, isMin: bool, key: string)
    ensures key in SrcOutput(s, folders, isMin) <==> exists i :: 0 <= i < |folders| && Emits(s, folders[i], isMin, key)
    decreases |folders|
  {
    if folders != [] {
      var init := folders[..|folders| - 1];
      SrcOutputKeys(s, init, isMin, key);
      if exists i :: 0 <= i < |init| && Emits(s, init[i], isMin, key) {
        var i :| 0 <= i < |init| && Emits(s, init[i], isMin, key);
        assert folders[i] == init[i];
      }
      if exists i :: 0 <= i < |folders| && Emits(s, folders[i], isMin, key) {
        var i :| 0 <= i < |folders| && Emits(s, folders[i], isMin, key);
        if i < |init| {
          assert init[i] == folders[i];
        }
      }
    }
  }

  /**
   * The entry under a folder's key is that folder's input when no later
   * folder produces the same key (the last write wins).
   */
  lemma {:induction false} SrcOutputValue(s: Scope, folders: seq<string>, isMin: bool, i: int)
    requires 0 <= i < |folders| && Resolve(s, folders[i]).Some?
    requires forall j :: i < j < |folders| ==>
               !Emits(s, folders[j], isMin, OutputPath(Resolve(s, folders[i]).value, isMin, s.distExt))
    ensures OutputPath(Resolve(s, folders[i]).value, isMin, s.distExt) in SrcOutput(s, folders, isMin)
    ensures SrcOutput(s, folders, isMin)[OutputPath(Resolve(s, folders[i]).value, isMin, s.distExt)]
         == InputFor(s, Resolve(s, folders[i]).value)
    decreases |folders|
  {
    var init := folders[..|folders| - 1];
    if i < |folders| - 1 {
      assert !Emits(s, folders[|folders| - 1], isMin, OutputPath(Resolve(s, folders[i]).value, isMin, s.distExt));
      assert init[i] == folders[i];
      forall j | i < j < |init|
        ensures !Emits(s, init[j], isMin, OutputPath(Resolve(s, init[i]).value, isMin, s.distExt))
      {
        assert init[j] == folders[j];
      }
      SrcOutputValue(s, init, isMin, i);
    }
  }

  /** The key of a folder kept as it is (no `data` hook). */
  function PlainKey(s: Scope, folder: string, isMin: bool): string {
    OutputPath(Describe(s, folder), isMin, s.distExt)
  }

  /** Distinct folders give distinct keys. */
  lemma PlainKeyInjective(s: Scope, a: string, b: string, isMin: bool)
    requires PlainKey(s, a, isMin) == PlainKey(s, b, isMin)
    ensures a == b
  {
    var pre := s.distPath + "/";
    var post := MinSuffix(isMin) + "." + s.distExt;
    assert PlainKey(s, a, isMin) == pre + a + post;
    assert PlainKey(s, b, isMin) == pre + b + post;
    assert |a| == |b|;
    assert a == (pre + a + post)[|pre|..|pre| + |a|];
    assert b == (pre + b + post)[|pre|..|pre| + |b|];
  }

  /** The `data` hook, if any, only vetoes folders and never rewrites a descriptor. */
  ghost predicate KeepsDescriptors(s: Scope) {
    forall folder :: Resolve(s, folder).Some? ==> Resolve(s, folder).value == Describe(s, folder)
  }

  /** Without a `data` hook every descriptor is kept, and exactly the ignored folders are dropped. */
  lemma NoDataHookKeepsDescriptors(s: Scope)
    requires s.data.None?
    ensures KeepsDescriptors(s)
    ensures forall folder :: Resolve(s, folder).Some? <==> folder !in s.ignores
  {
  }

  /**
   * When descriptors are kept: exactly one entry per listed folder that is
   * neither ignored nor vetoed, keyed `<dist>/<folder>[.min].<distExt>` and
   * holding that folder's input; a vetoed folder leaves no entry and does not
   * disturb the others.
   */
  lemma FilesPerFolder(s: Scope, folders: seq<string>, isMin: bool, folder: string)
    requires KeepsDescriptors(s)
    ensures PlainKey(s, folder, isMin) in SrcOutput(s, folders, isMin) <==> folder in folders && Resolve(s, folder).Some?
    ensures folder in folders && Resolve(s, folder).Some? ==>
              SrcOutput(s, folders, isMin)[PlainKey(s, folder, isMin)] == InputFor(s, Describe(s, folder))
  {
    var key := PlainKey(s, folder, isMin);
    SrcOutputKeys(s, folders, isMin, key);
    if exists i :: 0 <= i < |folders| && Emits(s, folders[i], isMin, key) {
      var i :| 0 <= i < |folders| && Emits(s, folders[i], isMin, key);
      PlainKeyInjective(s, folders[i], folder, isMin);
    }
    if folder in folders && Resolve(s, folder).Some? {
      var i :| 0 <= i < |folders| && folders[i] == folder;
      assert Emits(s, folders[i], isMin, key);
      var last := LastIndex(folders, folder, i);
      forall j | last < j < |folders| ensures !Emits(s, folders[j], isMin, key) {
        if Emits(s, folders[j], isMin, key) {
          PlainKeyInjective(s, folders[j], folder, isMin);
        }
      }
      SrcOutputValue(s, folders, isMin, last);
    }
  }

  /** The last index holding `x`, at or after `i`. */
  ghost function LastIndex(xs: seq<string>, x: string, i: int): (k: int)
    requires 0 <= i < |xs| && xs[i] == x
    ensures i <= k < |xs| && xs[k] == x
    ensures forall j :: k < j < |xs| ==> xs[j] != x
    decreases |xs| - i
  {
    if exists j :: i < j < |xs| && xs[j] == x then
      var j :| i < j < |xs| && xs[j] == x;
      LastIndex(xs, x, j)
    else i
  }

  /** Every key in the files map belongs to a listed folder that is neither ignored nor vetoed. */
  lemma KeysComeFromFolders(s: Scope, folders: seq<string>, isMin: bool, key: string)
    requires KeepsDescriptors(s)
    requires key in SrcOutput(s, folders, isMin)
    ensures exists folder :: folder in folders && Resolve(s, folder).Some? && key == PlainKey(s, folder, isMin)
  {
    SrcOutputKeys(s, folders, isMin, key);
    var i :| 0 <= i < |folders| && Emits(s, folders[i], isMin, key);
    assert folders[i] in folders && Resolve(s, folders[i]).Some? && key == PlainKey(s, folders[i], isMin);
  }
}
