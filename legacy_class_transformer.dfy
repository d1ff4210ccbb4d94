/*
 * The deprecated base class com.github.drochetti.javassist.maven.ClassTransformer:
 * the same batch over class names as the executor, but without a stamp, with
 * the untrimmed input directory, the output directory taken as given, and a
 * catch clause that contains every exception of a class. Only the class-name
 * iterator and the pool's set-up can end the batch, and both are rethrown as
 * RuntimeException.
 */
module LegacyClassTransformer {
  import opened JavaLang
  import opened Javassist
  import opened TransformRun

  /**
   * new ClassPool(ClassPool.getDefault()) with the input directory, the
   * context class loader and the system path appended. A null input
   * directory fails in appendClassPath with NullPointerException; every
   * failure here reaches the outer catch and leaves as RuntimeException.
   */
  function LegacyPool(inputDir: Option<string>, env: Env): (r: Outcome<ClassPool>)
    ensures inputDir.None? ==> r == Thrown(Unchecked)
    ensures inputDir.Some? ==> (r.Ok? <==> ConfigureClassPool(inputDir.value, env).Ok?)
    ensures r.Ok? ==> r == ConfigureClassPool(inputDir.value, env)
    ensures r.Thrown? ==> r.exn == Unchecked
  {
    if inputDir.None? then Thrown(Unchecked)
    else match ConfigureClassPool(inputDir.value, env)
      case Thrown(_) => Thrown(Unchecked)
      case Ok(pool) => Ok(pool)
  }

  /** What the loop of one legacy transform works with. */
  datatype LegacyContext = LegacyContext(transformer: Transformer, pool: ClassPool, outDirectory: string, env: Env)

  /**
   * The try block for one class name: load it, warm it up against
   * java.lang.Object from the default pool, and when filter accepts it,
   * transform it and write it to the output directory, unstamped.
   */
  function LegacyProcessClass(ctx: LegacyContext, disk: Disk, cache: map<string, ClassFile>, className: string): Step
  {
    var (cache1, got) := Get(ctx.pool, disk, cache, className);
    if got.Thrown? then Step(Failed(Resolving, got.exn), cache1, disk)
    else
      var file := got.value;
      if !WarmsUp(ctx.pool, disk, cache1, file, OBJECT_CLASS_NAME in ctx.env.systemClasses) then
        Step(Failed(Resolving, NotFound), cache1, disk)
      else match ctx.transformer.shouldTransform(className, file)
        case Thrown(e) => Step(Failed(Predicate, e), cache1, disk)
        case Ok(false) => Step(SkippedByPredicate, cache1, disk)
        case Ok(true) =>
          match ctx.transformer.applyTransformations(className, file)
          case Thrown(e) => Step(Failed(Applying, e), cache1, disk)
          case Ok(transformed) =>
            match ctx.env.writeError(ctx.outDirectory, className)
            case Some(e) => Step(Failed(Writing, e), cache1[className := transformed], disk)
            case None => Step(Written, cache1[className := transformed], disk[(ctx.outDirectory, className) := transformed])
  }

  /**
   * What handling one class does in the legacy loop: there is no stamp, the
   * disk changes only by writing the transformed class, and a class that
   * cannot be resolved fails with NotFoundException.
   */
  lemma LegacyProcessClassContract(ctx: LegacyContext, disk: Disk, cache: map<string, ClassFile>, className: string)
    ensures var r := LegacyProcessClass(ctx, disk, cache, className);
            r.status != SkippedStamped && !(r.status.Failed? && r.status.stage == Stamping)
    ensures var r := LegacyProcessClass(ctx, disk, cache, className);
            r.status != Written ==> r.disk == disk
    ensures var r := LegacyProcessClass(ctx, disk, cache, className);
            r.status == Written ==>
              var got := Get(ctx.pool, disk, cache, className).1;
              got.Ok? && ctx.transformer.shouldTransform(className, got.value) == Ok(true) &&
              ctx.transformer.applyTransformations(className, got.value).Ok? &&
              r.disk == disk[(ctx.outDirectory, className) := ctx.transformer.applyTransformations(className, got.value).value]
    ensures var r := LegacyProcessClass(ctx, disk, cache, className);
            r.status.Failed? && r.status.stage == Resolving ==> r.status.exn == NotFound
  {
  }

  /** The pool's cache changes only for the class being handled. */
  lemma LegacyProcessClassCaches(ctx: LegacyContext, disk: Disk, cache: map<string, ClassFile>, className: string)
    ensures var r := LegacyProcessClass(ctx, disk, cache, className);
            forall m :: m != className ==> (m in r.cache <==> m in cache) && (m in cache ==> r.cache[m] == cache[m])
  {
    var (cache1, got) := Get(ctx.pool, disk, cache, className);
    var r := LegacyProcessClass(ctx, disk, cache, className);
    assert cache1 == cache || (className !in cache && cache1 == cache[className := got.value]);
    assert r.cache == cache1 || (got.Ok? && className in r.cache && r.cache == cache1[className := r.cache[className]]);
  }

  /**
   * One turn of the while loop. An exception of the iterator is outside the
   * per-class try and leaves as RuntimeException; an exception of a class is
   * always caught.
   */
  function LegacyProcessItem(ctx: LegacyContext, run: Run, item: Outcome<Option<string>>): Run
  {
    if run.escaped.Some? then run
    else match item
      case Thrown(_) => run.(escaped := Some(Unchecked))
      case Ok(None) => run
      case Ok(Some(className)) =>
        var step := LegacyProcessClass(ctx, run.disk, run.cache, className);
        Run(step.disk, step.cache, run.log + [Visit(className, step.status)], None)
  }

  function LegacyRunLoop(ctx: LegacyContext, items: seq<Outcome<Option<string>>>, start: Run): Run
  {
    if items == [] then start else LegacyProcessItem(ctx, LegacyRunLoop(ctx, items[..|items| - 1], start), items[|items| - 1])
  }

  /** The loop over one more name is one more turn. */
  lemma LegacyRunLoopExtend(ctx: LegacyContext, items: seq<Outcome<Option<string>>>, start: Run, i: nat)
    requires i < |items|
    ensures LegacyRunLoop(ctx, items[..i + 1], start) == LegacyProcessItem(ctx, LegacyRunLoop(ctx, items[..i], start), items[i])
  {
    assert items[..i + 1][..i] == items[..i];
  }

  /**
   * transform(inputDir, outputDir, classNames): only the iterator is
   * guarded; the input directory goes to the pool untrimmed, and a null
   * output directory is written to as the directory "null".
   */
  function LegacyTransformSpec(transformer: Transformer, inputDir: Option<string>, outputDir: Option<string>,
                               classNames: Option<seq<Outcome<Option<string>>>>, disk: Disk, env: Env): Run
  {
    if classNames.None? || classNames.value == [] then Start(disk)
    else match LegacyPool(inputDir, env)
      case Thrown(e) => Start(disk).(escaped := Some(e))
      case Ok(pool) => LegacyRunLoop(LegacyContext(transformer, pool, ToJavaString(outputDir), env), classNames.value, Start(disk))
  }

  /**
   * transform(inputDir, outputDir): nothing for a null or blank input
   * directory; otherwise the output directory defaults to the input
   * directory, neither is trimmed, and the input directory is listed.
   */
  function LegacyTransformDirectoriesSpec(transformer: Transformer, inputDir: Option<string>, outputDir: Option<string>,
                                          disk: Disk, env: Env): Run
  {
    if inputDir.None? || IsBlank(inputDir.value) then Start(disk)
    else
      var outDirectory := if outputDir.Some? && !IsBlank(outputDir.value) then outputDir else inputDir;
      match IterateClassnames(inputDir, disk, env)
      case Thrown(e) => Start(disk).(escaped := Some(e))
      case Ok(names) => LegacyTransformSpec(transformer, inputDir, outDirectory, Some(names), disk, env)
  }

  /** Once an exception has left the loop, further names change nothing. */
  lemma {:induction false} LegacyEscapedRunIsFinal(ctx: LegacyContext, items: seq<Outcome<Option<string>>>, start: Run, k: nat)
    requires k <= |items|
    requires LegacyRunLoop(ctx, items[..k], start).escaped.Some?
    ensures LegacyRunLoop(ctx, items, start) == LegacyRunLoop(ctx, items[..k], start)
  {
    if k < |items| {
      assert items[..|items| - 1][..k] == items[..k];
      LegacyEscapedRunIsFinal(ctx, items[..|items| - 1], start, k);
    } else {
      assert items[..k] == items;
    }
  }

  /**
   * A transformer written against the old base class: `hooks` are its
   * filter and applyTransformations overrides.
   */
  class ClassTransformer {
    const hooks: Transformer

    constructor (hooks: Transformer)
      ensures this.hooks == hooks
    {
      this.hooks := hooks;
    }

    /** configure: the base class accepts any properties, null included, and ignores them. */
    method Configure(properties: Properties?) returns (r: Outcome<()>)
      ensures r == Ok(())
    {
      r := Ok(());
    }

    /** The try block for one class name, on a freshly loaded CtClass. */
    method TransformClass(ctx: LegacyContext, disk: Disk, cache: map<string, ClassFile>, className: string)
      returns (status: Status, cache': map<string, ClassFile>, disk': Disk)
      ensures Step(status, cache', disk') == LegacyProcessClass(ctx, disk, cache, className)
    {
      disk' := disk;
      var loaded := Get(ctx.pool, disk, cache, className);  // classPool.get
      cache' := loaded.0;
      var got := loaded.1;
      if got.Thrown? {
        return Failed(Resolving, got.exn), cache', disk';
      }
      var candidateClass := new CtClass(className, got.value);
      // initializeClass, against java.lang.Object of the default pool
      if !WarmsUp(ctx.pool, disk, cache', candidateClass.file, OBJECT_CLASS_NAME in ctx.env.systemClasses) {
        return Failed(Resolving, NotFound), cache', disk';
      }
      var accepted := ctx.transformer.shouldTransform(className, candidateClass.file);
      if accepted.Thrown? {
        return Failed(Predicate, accepted.exn), cache', disk';
      }
      if !accepted.value {
        return SkippedByPredicate, cache', disk';
      }
      var applied := ctx.transformer.applyTransformations(className, candidateClass.file);
      if applied.Thrown? {
        return Failed(Applying, applied.exn), cache', disk';
      }
      candidateClass.file := applied.value;
      cache' := cache'[className := candidateClass.file];
      var written := candidateClass.WriteFile(ctx.outDirectory, disk, ctx.env.writeError(ctx.outDirectory, className));
      if written.Thrown? {
        return Failed(Writing, written.exn), cache', disk';
      }
      disk' := written.value;
      status := Written;
    }

    /** One turn of the loop: an iterator failure is rethrown as RuntimeException by the outer catch. */
    method TransformItem(ctx: LegacyContext, disk: Disk, cache: map<string, ClassFile>, ghost log: seq<Visit>,
                         item: Outcome<Option<string>>)
      returns (written: bool, cache': map<string, ClassFile>, disk': Disk, thrown: Option<Exn>, ghost log': seq<Visit>)
      ensures LegacyProcessItem(ctx, Run(disk, cache, log, None), item) == Run(disk', cache', log', thrown)
      ensures CountWritten(log') == CountWritten(log) + (if written then 1 else 0)
    {
      written, cache', disk', thrown, log' := false, cache, disk, None, log;
      if item.Thrown? {
        thrown := Some(Unchecked);
        return;
      }
      if item.value.None? {
        return;
      }
      var className := item.value.value;
      var status;
      status, cache', disk' := TransformClass(ctx, disk, cache, className);
      log' := log + [Visit(className, status)];
      assert log'[..|log'| - 1] == log;
      written := status == Written;
    }

    /** transform(inputDir, outputDir, classNames): returns the counter it logs, the disk, and the escaping exception. */
    method Transform(inputDir: Option<string>, outputDir: Option<string>,
                     classNames: Option<seq<Outcome<Option<string>>>>, disk: Disk, env: Env)
      returns (classCounter: nat, disk': Disk, thrown: Option<Exn>)
      ensures var r := LegacyTransformSpec(hooks, inputDir, outputDir, classNames, disk, env);
              classCounter == CountWritten(r.log) && disk' == r.disk && thrown == r.escaped
    {
      classCounter, disk', thrown := 0, disk, None;
      if classNames.None? || |classNames.value| == 0 {
        return;
      }
      var classPool := LegacyPool(inputDir, env);
      if classPool.Thrown? {
        return 0, disk, Some(classPool.exn);
      }
      var ctx := LegacyContext(hooks, classPool.value, ToJavaString(outputDir), env);
      classCounter, disk', thrown := TransformClasses(ctx, classNames.value, disk);
    }

    /** The while loop over the class names, with its counter. */
    method TransformClasses(ctx: LegacyContext, names: seq<Outcome<Option<string>>>, disk: Disk)
      returns (classCounter: nat, disk': Disk, thrown: Option<Exn>)
      ensures var r := LegacyRunLoop(ctx, names, Start(disk));
              classCounter == CountWritten(r.log) && disk' == r.disk && thrown == r.escaped
    {
      classCounter, disk', thrown := 0, disk, None;
      var cache: map<string, ClassFile> := map[];
      ghost var log: seq<Visit> := [];
      var i := 0;
      while i < |names|
        invariant 0 <= i <= |names|
        invariant LegacyRunLoop(ctx, names[..i], Start(disk)) == Run(disk', cache, log, None)
        invariant classCounter == CountWritten(log) && thrown.None?
      {
        LegacyRunLoopExtend(ctx, names, Start(disk), i);
        var written;
        written, cache, disk', thrown, log := TransformItem(ctx, disk', cache, log, names[i]);
        if written {
          classCounter := classCounter + 1;
        }
        if thrown.Some? {
          LegacyEscapedRunIsFinal(ctx, names, Start(disk), i + 1);
          assert names[..|names|] == names;
          return;
        }
        i := i + 1;
      }
      assert names[..i] == names;
    }

    /** transform(inputDir, outputDir) */
    method TransformDirectories(inputDir: Option<string>, outputDir: Option<string>, disk: Disk, env: Env)
      returns (disk': Disk, thrown: Option<Exn>)
      ensures var r := LegacyTransformDirectoriesSpec(hooks, inputDir, outputDir, disk, env);
              disk' == r.disk && thrown == r.escaped
    {
      if inputDir.None? || IsBlank(inputDir.value) {
        return disk, None;
      }
      var outDirectory := if outputDir.Some? && !IsBlank(outputDir.value) then outputDir else inputDir;
      var classNames := IterateClassnames(inputDir, disk, env);
      if classNames.Thrown? {
        return disk, Some(classNames.exn);
      }
      var classCounter;
      classCounter, disk', thrown := Transform(inputDir, outDirectory, Some(classNames.value), disk, env);
    }

    /** transform(dir): input and output are the same directory. */
    method TransformDirectory(dir: Option<string>, disk: Disk, env: Env) returns (disk': Disk, thrown: Option<Exn>)
      ensures var r := LegacyTransformDirectoriesSpec(hooks, dir, dir, disk, env);
              disk' == r.disk && thrown == r.escaped
    {
      if dir.None? || IsBlank(dir.value) {
        return disk, None;
      }
      var classNames := IterateClassnames(dir, disk, env);
      if classNames.Thrown? {
        return disk, Some(classNames.exn);
      }
      var classCounter;
      classCounter, disk', thrown := Transform(dir, dir, Some(classNames.value), disk, env);
    }
  }
}
