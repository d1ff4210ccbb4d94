/*
 * What the executor's batch loop and the legacy ClassTransformer's loop have
 * in common: the transformer hooks, the environment a run sees (class
 * loaders, archives, directory listing, write failures), the class pool a
 * run builds over the input directory, the class-name source for a
 * directory, and the record a run leaves behind.
 */
module TransformRun {
  import opened JavaLang
  import opened Javassist
  import ClassnameExtractor

  /**
   * The two hooks of a transformer: the candidate predicate
   * (shouldTransform, or filter in the legacy API) and the transformation,
   * which rewrites the loaded class. Both see the class name and the class
   * as loaded, and may throw.
   */
  datatype Transformer = Transformer(
    shouldTransform: (string, ClassFile) -> Outcome<bool>,
    applyTransformations: (string, ClassFile) -> Outcome<ClassFile>)

  /**
   * The world outside the loop: what the context class loader and the
   * system class path can load, the JAR and ZIP files that can be opened (by
   * path), the class files FileUtils.iterateFiles lists under a directory
   * (None when the path is not a directory), and the exception
   * CtClass.writeFile throws for a class and directory, if any.
   */
  datatype Env = Env(
    loaderClasses: map<string, ClassFile>,
    systemClasses: map<string, ClassFile>,
    archives: map<string, map<string, ClassFile>>,
    listClassFiles: (Disk, string) -> Option<seq<string>>,
    writeError: (string, string) -> Option<Exn>)

  const OBJECT_CLASS_NAME := "java.lang.Object"

  /** String.toLowerCase, for the ASCII letters. */
  function ToLower(s: string): (r: string)
    ensures |r| == |s|
    ensures forall i :: 0 <= i < |s| ==> r[i] == if 'A' <= s[i] <= 'Z' then (s[i] - 'A' + 'a') as char else s[i]
  {
    if s == [] then [] else [if 'A' <= s[0] <= 'Z' then (s[0] - 'A' + 'a') as char else s[0]] + ToLower(s[1..])
  }

  predicate EndsWith(s: string, suffix: string) {
    |suffix| <= |s| && s[|s| - |suffix|..] == suffix
  }

  /** The path names that ClassPool.appendClassPath opens as an archive. */
  predicate IsArchivePath(pathname: string) {
    EndsWith(ToLower(pathname), ".jar") || EndsWith(ToLower(pathname), ".zip")
  }

  /**
   * ClassPool.appendClassPath(String): an archive, which must open (a
   * NotFoundException otherwise), or a directory of class files.
   */
  function MakePathObject(pathname: string, env: Env): (r: Outcome<ClassPath>)
    ensures r.Thrown? <==> IsArchivePath(pathname) && pathname !in env.archives
    ensures r.Thrown? ==> r.exn == NotFound
    ensures !IsArchivePath(pathname) ==> r == Ok(DirClassPath(pathname))
  {
    if IsArchivePath(pathname) then
      if pathname in env.archives then Ok(JarClassPath(env.archives[pathname])) else Thrown(NotFound)
    else Ok(DirClassPath(pathname))
  }

  /** ClassPool.getDefault(): the system class path alone. */
  function DefaultPool(env: Env): ClassPool {
    ClassPool(false, [SystemClassPath(env.systemClasses)], [])
  }

  /**
   * The pool of one run: a child of the default pool that searches its own
   * paths first, appended as input directory, context class loader, system
   * class path.
   */
  function ConfigureClassPool(inputDir: string, env: Env): (r: Outcome<ClassPool>)
    ensures r.Thrown? <==> MakePathObject(inputDir, env).Thrown?
    ensures r.Thrown? ==> r.exn == NotFound
    ensures r.Ok? ==> r.value.childFirstLookup && r.value.parent == DefaultPool(env).paths &&
                      r.value.paths == [MakePathObject(inputDir, env).value,
                                        LoaderClassPath(env.loaderClasses),
                                        SystemClassPath(env.systemClasses)]
  {
    match MakePathObject(inputDir, env)
    case Thrown(e) => Thrown(e)
    case Ok(input) =>
      Ok(ClassPool(true, [input, LoaderClassPath(env.loaderClasses), SystemClassPath(env.systemClasses)],
                   DefaultPool(env).paths))
  }

  /** ClassPool.get succeeds for `name`: it was loaded before, or the search finds it. */
  predicate Resolvable(pool: ClassPool, disk: Disk, cache: map<string, ClassFile>, name: string) {
    name in cache || Find(pool, disk, name).Some?
  }

  /**
   * The subtypeOf(Object) warm-up after loading a class: java.lang.Object
   * must load (`objectFound`) and so must every supertype the walk visits.
   */
  predicate WarmsUp(pool: ClassPool, disk: Disk, cache: map<string, ClassFile>, file: ClassFile, objectFound: bool) {
    objectFound && forall s :: s in file.supers ==> Resolvable(pool, disk, cache, s)
  }

  /**
   * iterateClassnames(directory): the class names of the class files under
   * `directory`, in listing order, each extracted relative to the
   * directory. new File(null) throws NullPointerException; listing a path
   * that is not a directory throws IllegalArgumentException.
   */
  function IterateClassnames(directory: Option<string>, disk: Disk, env: Env)
    : (r: Outcome<seq<Outcome<Option<string>>>>)
    ensures directory.None? ==> r == Thrown(Unchecked)
    ensures directory.Some? && env.listClassFiles(disk, directory.value).None? ==> r == Thrown(Unchecked)
    ensures directory.Some? && env.listClassFiles(disk, directory.value).Some? ==>
              var files := env.listClassFiles(disk, directory.value).value;
              r.Ok? && |r.value| == |files| &&
              forall i :: 0 <= i < |files| ==>
                r.value[i] == ClassnameExtractor.ExtractClassNameFromFile(directory, Some(files[i]))
  {
    if directory.None? then Thrown(Unchecked)
    else match env.listClassFiles(disk, directory.value)
      case None => Thrown(Unchecked)
      case Some(files) =>
        Ok(ClassnameExtractor.ClassNames(directory, seq(|files|, i requires 0 <= i < |files| => Some(files[i]))))
  }

  /** Where the handling of one class stopped. */
  datatype Stage = Resolving | Predicate | Applying | Stamping | Writing

  /** What happened to one class name. */
  datatype Status =
    | Written                               // transformed, stamped (if the loop stamps) and written
    | SkippedStamped                        // carries the stamp already
    | SkippedByPredicate                    // the predicate said no
    | Failed(stage: Stage, exn: Exn)        // an exception at `stage`

  datatype Visit = Visit(className: string, status: Status)

  /** The result of handling one class name: its status, the pool's cache and the disk afterwards. */
  datatype Step = Step(status: Status, cache: map<string, ClassFile>, disk: Disk)

  /**
   * The state of a run: the disk, the pool's cache of loaded classes (by
   * their current contents), one visit per non-null name handled, and the
   * exception that left the loop, if one did.
   */
  datatype Run = Run(disk: Disk, cache: map<string, ClassFile>, log: seq<Visit>, escaped: Option<Exn>)

  function Start(disk: Disk): Run {
    Run(disk, map[], [], None)
  }

  /** The number of classes a run wrote: what the loop's counter ends at. */
  function CountWritten(log: seq<Visit>): (n: nat)
    ensures n <= |log|
  {
    if log == [] then 0 else CountWritten(log[..|log| - 1]) + (if log[|log| - 1].status == Written then 1 else 0)
  }

  /** The names of the classes a run wrote. */
  function WrittenNames(log: seq<Visit>): (names: set<string>)
    ensures forall n :: n in names <==> exists i :: 0 <= i < |log| && log[i] == Visit(n, Written)
  {
    if log == [] then {}
    else
      var names := WrittenNames(log[..|log| - 1]) + (if log[|log| - 1].status == Written then {log[|log| - 1].className} else {});
      assert forall i :: 0 <= i < |log| - 1 ==> log[..|log| - 1][i] == log[i];
      names
  }

  /** The class names a run visited, in order. */
  function Visited(log: seq<Visit>): (names: seq<string>)
    ensures |names| == |log|
    ensures forall i :: 0 <= i < |log| ==> names[i] == log[i].className
  {
    if log == [] then [] else Visited(log[..|log| - 1]) + [log[|log| - 1].className]
  }

  /** The non-null names of a class-name sequence, in order. */
  function NonNullNames(items: seq<Outcome<Option<string>>>): seq<string> {
    if items == [] then []
    else NonNullNames(items[..|items| - 1]) +
         (if items[|items| - 1].Ok? && items[|items| - 1].value.Some? then [items[|items| - 1].value.value] else [])
  }

  /** Appending one visit to a log. */
  lemma LogAppend(log: seq<Visit>, v: Visit)
    ensures CountWritten(log + [v]) == CountWritten(log) + (if v.status == Written then 1 else 0)
    ensures WrittenNames(log + [v]) == WrittenNames(log) + (if v.status == Written then {v.className} else {})
    ensures Visited(log + [v]) == Visited(log) + [v.className]
  {
    assert (log + [v])[..|log|] == log;
  }
}
