/*
 * JavassistTransformerExecutor: runs transformers over the class files of
 * an input directory. Each class it transforms gets a boolean "stamp"
 * field before it is written, and a class that already carries the stamp is
 * left alone. Per-class failures of the checked kinds are contained; the
 * batch goes on.
 *
 * The run is specified by functions (ProcessClass, RunLoop, TransformSpec,
 * ExecuteSpec); the class JavassistTransformerExecutor holds the
 * step-by-step methods and is proved against them.
 */
module TransformerExecutor {
  import opened JavaLang
  import opened Javassist
  import opened TransformRun

  /** The prefix of the stamp field's name. */
  const STAMP_FIELD_NAME := "__TRANSFORMED_BY_JAVASSIST_MAVEN_PLUGIN__"

  /** getClass().getName() of an executor that is not subclassed. */
  const EXECUTOR_CLASS_NAME := "de.icongmbh.oss.maven.plugin.javassist.JavassistTransformerExecutor"

  /**
   * createStampFieldName: the prefix, then the runtime class name of the
   * executor with every non-word character turned into '_'.
   */
  function StampFieldName(runtimeClassName: string): string
  {
    STAMP_FIELD_NAME + ReplaceNonWord(runtimeClassName)
  }

  /**
   * The stamp's name starts with the prefix, is made of word characters
   * only, and keeps every word character of the runtime class name in place.
   */
  lemma StampFieldNameShape(runtimeClassName: string)
    ensures var r := StampFieldName(runtimeClassName);
            |r| == |STAMP_FIELD_NAME| + |runtimeClassName| &&
            r[..|STAMP_FIELD_NAME|] == STAMP_FIELD_NAME &&
            (forall i :: 0 <= i < |r| ==> IsWordChar(r[i])) &&
            forall i :: 0 <= i < |runtimeClassName| ==>
              r[|STAMP_FIELD_NAME| + i] == if IsWordChar(runtimeClassName[i]) then runtimeClassName[i] else '_'
  {
    assert forall i :: 0 <= i < |STAMP_FIELD_NAME| ==> IsWordChar(STAMP_FIELD_NAME[i]);
  }

  /** The access flags of the stamp: private in a class, public in an interface, always static final. */
  function StampModifiers(isInterface: bool): (m: bv16)
    ensures m & (STATIC | FINAL) == STATIC | FINAL
    ensures isInterface ==> m & (PUBLIC | PRIVATE | PROTECTED) == PUBLIC
    ensures !isInterface ==> m & (PUBLIC | PRIVATE | PROTECTED) == PRIVATE
    ensures m & !(PUBLIC | PRIVATE | STATIC | FINAL) == 0
  {
    var stampModifiers := STATIC | FINAL;
    if !isInterface then stampModifiers | PRIVATE else stampModifiers | PUBLIC
  }

  /** createStampField, with the constant initialiser applyStamp gives it. */
  function StampField(isInterface: bool): Field {
    Field(BooleanType, StampModifiers(isInterface), ConstantBool(true))
  }

  /** The class after the stamp field named `stampName` was added. */
  function Stamped(file: ClassFile, stampName: string): (r: ClassFile)
    ensures stampName in r.fields && r.fields[stampName] == StampField(file.isInterface)
    ensures r.fields.Keys == file.fields.Keys + {stampName}
    ensures forall n :: n in file.fields && n != stampName ==> r.fields[n] == file.fields[n]
    ensures r.(fields := file.fields) == file
  {
    file.(fields := file.fields[stampName := StampField(file.isInterface)])
  }

  /**
   * evaluateOutputDirectory: the output directory as given when it is not
   * null and not blank, otherwise the trimmed input directory; a null input
   * directory then throws NullPointerException.
   */
  function EvaluateOutputDirectory(outputDir: Option<string>, inputDir: Option<string>): (r: Outcome<string>)
    ensures outputDir.Some? && !IsBlank(outputDir.value) ==> r == Ok(outputDir.value)
    ensures (outputDir.None? || IsBlank(outputDir.value)) && inputDir.Some? ==> r == Ok(Trim(inputDir.value))
    ensures (outputDir.None? || IsBlank(outputDir.value)) && inputDir.None? ==> r == Thrown(Unchecked)
  {
    if outputDir.Some? && !IsBlank(outputDir.value) then Ok(outputDir.value)
    else if inputDir.None? then Thrown(Unchecked)
    else Ok(Trim(inputDir.value))
  }

  /** What one transform run works with once its pool is set up. */
  datatype Context = Context(
    transformer: Transformer,
    pool: ClassPool,
    outDirectory: string,
    stampName: string,
    env: Env)

  /**
   * The body of the loop's try block for one class name: load it through
   * the pool, warm it up, skip it when it carries the stamp or the
   * transformer declines it, otherwise transform it, stamp it and write it
   * to the output directory. The pool keeps the class as last changed.
   */
  function ProcessClass(ctx: Context, disk: Disk, cache: map<string, ClassFile>, className: string): Step
  {
    var (cache1, got) := Get(ctx.pool, disk, cache, className);
    if got.Thrown? then Step(Failed(Resolving, got.exn), cache1, disk)
    else
      var file := got.value;
      if !WarmsUp(ctx.pool, disk, cache1, file, Resolvable(ctx.pool, disk, cache1, OBJECT_CLASS_NAME)) then
        Step(Failed(Resolving, NotFound), cache1, disk)
      else if ctx.stampName in file.fields then Step(SkippedStamped, cache1, disk)
      else match ctx.transformer.shouldTransform(className, file)
        case Thrown(e) => Step(Failed(Predicate, e), cache1, disk)
        case Ok(false) => Step(SkippedByPredicate, cache1, disk)
        case Ok(true) =>
          match ctx.transformer.applyTransformations(className, file)
          case Thrown(e) => Step(Failed(Applying, e), cache1, disk)
          case Ok(transformed) =>
            if ctx.stampName in transformed.fields then
              // addField of a field the class already declares
              Step(Failed(Stamping, CannotCompile), cache1[className := transformed], disk)
            else
              var stamped := Stamped(transformed, ctx.stampName);
              match ctx.env.writeError(ctx.outDirectory, className)
              case Some(e) => Step(Failed(Writing, e), cache1[className := stamped], disk)
              case None => Step(Written, cache1[className := stamped], disk[(ctx.outDirectory, className) := stamped])
  }

  /** Handling one class changes the disk only by writing this class, stamped, to the output directory. */
  lemma ProcessClassWrites(ctx: Context, disk: Disk, cache: map<string, ClassFile>, className: string)
    ensures var r := ProcessClass(ctx, disk, cache, className);
            r.status != Written ==> r.disk == disk
    ensures var r := ProcessClass(ctx, disk, cache, className);
            r.status == Written ==>
              (ctx.outDirectory, className) in r.disk &&
              r.disk == disk[(ctx.outDirectory, className) := r.disk[(ctx.outDirectory, className)]] &&
              ctx.stampName in r.disk[(ctx.outDirectory, className)].fields &&
              className in r.cache && r.cache[className] == r.disk[(ctx.outDirectory, className)]
  {
  }

  /** The pool's cache changes only for this class, and only once the class could be loaded. */
  lemma ProcessClassCaches(ctx: Context, disk: Disk, cache: map<string, ClassFile>, className: string)
    ensures var r := ProcessClass(ctx, disk, cache, className);
            forall m :: m != className ==> (m in r.cache <==> m in cache) && (m in cache ==> r.cache[m] == cache[m])
    ensures var r := ProcessClass(ctx, disk, cache, className);
            className in r.cache ==> className in cache || Find(ctx.pool, disk, className).Some?
  {
    var (cache1, got) := Get(ctx.pool, disk, cache, className);
    var r := ProcessClass(ctx, disk, cache, className);
    assert cache1 == cache || (className !in cache && cache1 == cache[className := got.value]);
    assert r.cache == cache1 || (got.Ok? && className in r.cache && r.cache == cache1[className := r.cache[className]]);
  }

  /** A class that loads with the stamp is never offered to the transformer, and stays stamped in the pool. */
  lemma ProcessClassSkipsStamped(ctx: Context, disk: Disk, cache: map<string, ClassFile>, className: string)
    requires var got := Get(ctx.pool, disk, cache, className).1;
             got.Ok? && ctx.stampName in got.value.fields
    ensures var r := ProcessClass(ctx, disk, cache, className);
            NeverOffered(r.status) && r.disk == disk &&
            className in r.cache && ctx.stampName in r.cache[className].fields
  {
  }

  /**
   * Only a class that loads without the stamp and that shouldTransform
   * accepts is transformed, and what is written is the transformed class
   * with the stamp added.
   */
  lemma ProcessClassTransforms(ctx: Context, disk: Disk, cache: map<string, ClassFile>, className: string)
    ensures var r := ProcessClass(ctx, disk, cache, className);
            Transformed(r.status) ==>
              var got := Get(ctx.pool, disk, cache, className).1;
              got.Ok? && ctx.stampName !in got.value.fields && ctx.transformer.shouldTransform(className, got.value) == Ok(true)
    ensures var r := ProcessClass(ctx, disk, cache, className);
            r.status == Written ==>
              var got := Get(ctx.pool, disk, cache, className).1;
              got.Ok? && ctx.transformer.applyTransformations(className, got.value).Ok? &&
              (ctx.outDirectory, className) in r.disk &&
              r.disk[(ctx.outDirectory, className)] ==
                Stamped(ctx.transformer.applyTransformations(className, got.value).value, ctx.stampName)
  {
  }

  /** The outcomes in which neither shouldTransform nor applyTransformations was called. */
  predicate NeverOffered(status: Status) {
    status == SkippedStamped || (status.Failed? && status.stage == Resolving)
  }

  /** The outcomes in which applyTransformations was called. */
  predicate Transformed(status: Status) {
    status == Written || (status.Failed? && status.stage in {Applying, Stamping, Writing})
  }

  /** The exceptions the per-class catch clauses contain: all but the unchecked ones. */
  predicate Contained(e: Exn) {
    e != Unchecked
  }

  /**
   * One turn of the while loop: nothing once an exception has left the
   * loop; an exception from the name iterator leaves it; a null name is
   * skipped; any other name is handled by ProcessClass, and an exception the
   * catch clauses do not contain leaves the loop.
   */
  function ProcessItem(ctx: Context, run: Run, item: Outcome<Option<string>>): Run
  {
    if run.escaped.Some? then run
    else match item
      case Thrown(e) => run.(escaped := Some(e))
      case Ok(None) => run
      case Ok(Some(className)) =>
        var step := ProcessClass(ctx, run.disk, run.cache, className);
        var escaped := if step.status.Failed? && !Contained(step.status.exn) then Some(step.status.exn) else None;
        Run(step.disk, step.cache, run.log + [Visit(className, step.status)], escaped)
  }

  /** The while loop over the class names, from the state `start`. */
  function RunLoop(ctx: Context, items: seq<Outcome<Option<string>>>, start: Run): Run
  {
    if items == [] then start else ProcessItem(ctx, RunLoop(ctx, items[..|items| - 1], start), items[|items| - 1])
  }

  /** The loop over one more name is one more turn. */
  lemma RunLoopExtend(ctx: Context, items: seq<Outcome<Option<string>>>, start: Run, i: nat)
    requires i < |items|
    ensures RunLoop(ctx, items[..i + 1], start) == ProcessItem(ctx, RunLoop(ctx, items[..i], start), items[i])
  {
    assert items[..i + 1][..i] == items[..i];
  }

  /**
   * transform(transformer, inputDir, outputDir, classNames): the guard
   * clauses, the pool over the trimmed input directory (a NotFoundException
   * there is rethrown as RuntimeException), the effective output directory,
   * then the loop.
   */
  function TransformSpec(runtimeClassName: string, transformer: Option<Transformer>,
                         inputDir: Option<string>, outputDir: Option<string>,
                         classNames: Option<seq<Outcome<Option<string>>>>, disk: Disk, env: Env): Run
  {
    if transformer.None? || inputDir.None? || IsBlank(inputDir.value) || classNames.None? || classNames.value == [] then
      Start(disk)
    else
      var inDirectory := Trim(inputDir.value);
      match ConfigureClassPool(inDirectory, env)
      case Thrown(_) => Start(disk).(escaped := Some(Unchecked))
      case Ok(pool) =>
        match EvaluateOutputDirectory(outputDir, Some(inDirectory))
        case Thrown(e) => Start(disk).(escaped := Some(e))
        case Ok(outDirectory) =>
          RunLoop(Context(transformer.value, pool, outDirectory, StampFieldName(runtimeClassName), env),
                  classNames.value, Start(disk))
  }

  /** transform(transformer, inputDir, outputDir): list the input directory first, then transform. */
  function TransformDirectoriesSpec(runtimeClassName: string, transformer: Option<Transformer>,
                                    inputDir: Option<string>, outputDir: Option<string>, disk: Disk, env: Env): Run
  {
    match IterateClassnames(inputDir, disk, env)
    case Thrown(e) => Start(disk).(escaped := Some(e))
    case Ok(names) => TransformSpec(runtimeClassName, transformer, inputDir, outputDir, Some(names), disk, env)
  }

  /**
   * execute(): the configured transformers in array order, each against the
   * same directories and the disk the previous one left; an exception stops
   * the rest.
   */
  function ExecuteSpec(runtimeClassName: string, transformers: seq<Option<Transformer>>,
                       inputDir: Option<string>, outputDir: Option<string>, disk: Disk, env: Env)
    : (Disk, Option<Exn>)
  {
    if transformers == [] then (disk, None)
    else
      var (before, thrown) := ExecuteSpec(runtimeClassName, transformers[..|transformers| - 1], inputDir, outputDir, disk, env);
      if thrown.Some? then (before, thrown)
      else
        var r := TransformDirectoriesSpec(runtimeClassName, transformers[|transformers| - 1], inputDir, outputDir, before, env);
        (r.disk, r.escaped)
  }

  /** Once an exception has left the loop, further names change nothing. */
  lemma {:induction false} EscapedRunIsFinal(ctx: Context, items: seq<Outcome<Option<string>>>, start: Run, k: nat)
    requires k <= |items|
    requires RunLoop(ctx, items[..k], start).escaped.Some?
    ensures RunLoop(ctx, items, start) == RunLoop(ctx, items[..k], start)
  {
    if k < |items| {
      assert items[..|items| - 1][..k] == items[..k];
      EscapedRunIsFinal(ctx, items[..|items| - 1], start, k);
    } else {
      assert items[..k] == items;
    }
  }

  /** An exception that escaped the transformers before stops execute(). */
  lemma {:induction false} ExecuteStopsAtEscape(runtimeClassName: string, transformers: seq<Option<Transformer>>,
                                               inputDir: Option<string>, outputDir: Option<string>,
                                               disk: Disk, env: Env, k: nat)
    requires k <= |transformers|
    requires ExecuteSpec(runtimeClassName, transformers[..k], inputDir, outputDir, disk, env).1.Some?
    ensures ExecuteSpec(runtimeClassName, transformers, inputDir, outputDir, disk, env)
            == ExecuteSpec(runtimeClassName, transformers[..k], inputDir, outputDir, disk, env)
  {
    if k < |transformers| {
      assert transformers[..|transformers| - 1][..k] == transformers[..k];
      ExecuteStopsAtEscape(runtimeClassName, transformers[..|transformers| - 1], inputDir, outputDir, disk, env, k);
    } else {
      assert transformers[..k] == transformers;
    }
  }

  class JavassistTransformerExecutor {
    /** getClass().getName(): the executor's own name unless a subclass is instantiated. */
    const runtimeClassName: string
    var transformerInstances: seq<Option<Transformer>>
    var inputDirectory: Option<string>
    var outputDirectory: Option<string>

    constructor (runtimeClassName: string)
      ensures this.runtimeClassName == runtimeClassName
      ensures transformerInstances == [] && inputDirectory == None && outputDirectory == None
    {
      this.runtimeClassName := runtimeClassName;
      transformerInstances := [];
      inputDirectory := None;
      outputDirectory := None;
    }

    /** setTransformerClasses: keeps a copy of the array; a null array throws NullPointerException. */
    method SetTransformerClasses(transformerInstances: array?<Option<Transformer>>) returns (r: Outcome<()>)
      modifies this
      ensures transformerInstances == null ==> r == Thrown(Unchecked) && this.transformerInstances == old(this.transformerInstances)
      ensures transformerInstances != null ==> r == Ok(()) && this.transformerInstances == transformerInstances[..]
      ensures inputDirectory == old(inputDirectory) && outputDirectory == old(outputDirectory)
    {
      if transformerInstances == null {
        return Thrown(Unchecked);
      }
      this.transformerInstances := transformerInstances[..];
      r := Ok(());
    }

    method SetInputDirectory(inputDirectory: Option<string>)
      modifies this
      ensures this.inputDirectory == inputDirectory
      ensures transformerInstances == old(transformerInstances) && outputDirectory == old(outputDirectory)
    {
      this.inputDirectory := inputDirectory;
    }

    method SetOutputDirectory(outputDirectory: Option<string>)
      modifies this
      ensures this.outputDirectory == outputDirectory
      ensures transformerInstances == old(transformerInstances) && inputDirectory == old(inputDirectory)
    {
      this.outputDirectory := outputDirectory;
    }

    function GetInputDirectory(): Option<string>
      reads this
    {
      inputDirectory
    }

    function GetOutputDirectory(): Option<string>
      reads this
    {
      outputDirectory
    }

    /** hasStamp: the class itself declares the stamp field (a NotFoundException means no). */
    function HasStamp(candidateClass: CtClass): (r: bool)
      reads candidateClass
      ensures r <==> StampFieldName(runtimeClassName) in candidateClass.file.fields
    {
      candidateClass.GetDeclaredField(StampFieldName(runtimeClassName)).Ok?
    }

    /** applyStamp: adds the stamp field; CannotCompileException when the class declares it already. */
    method ApplyStamp(candidateClass: CtClass) returns (r: Outcome<()>)
      modifies candidateClass
      ensures !old(HasStamp(candidateClass)) ==>
                r == Ok(()) && candidateClass.file == Stamped(old(candidateClass.file), StampFieldName(runtimeClassName))
      ensures old(HasStamp(candidateClass)) ==> r == Thrown(CannotCompile) && candidateClass.file == old(candidateClass.file)
      ensures HasStamp(candidateClass)
    {
      var stampField := StampField(candidateClass.IsInterface());
      r := candidateClass.AddField(StampFieldName(runtimeClassName), stampField);
    }

    /** removeStamp: removes the stamp field; a class without one is left as it is. */
    method RemoveStamp(candidateClass: CtClass)
      modifies candidateClass
      ensures candidateClass.file == old(candidateClass.file).(fields := old(candidateClass.file.fields) - {StampFieldName(runtimeClassName)})
      ensures !HasStamp(candidateClass)
    {
      var removed := candidateClass.RemoveField(StampFieldName(runtimeClassName));
      // a NotFoundException is ignored: there is no stamp to remove
    }

    /** The try block of the loop for one class name, on a freshly loaded CtClass. */
    method TransformClass(ctx: Context, disk: Disk, cache: map<string, ClassFile>, className: string)
      returns (status: Status, cache': map<string, ClassFile>, disk': Disk)
      requires ctx.stampName == StampFieldName(runtimeClassName)
      ensures Step(status, cache', disk') == ProcessClass(ctx, disk, cache, className)
    {
      disk' := disk;
      var loaded := Get(ctx.pool, disk, cache, className);  // classPool.get
      cache' := loaded.0;
      var got := loaded.1;
      if got.Thrown? {
        return Failed(Resolving, got.exn), cache', disk';
      }
      var candidateClass := new CtClass(className, got.value);
      // initializeClass
      if !WarmsUp(ctx.pool, disk, cache', candidateClass.file, Resolvable(ctx.pool, disk, cache', OBJECT_CLASS_NAME)) {
        return Failed(Resolving, NotFound), cache', disk';
      }
      if HasStamp(candidateClass) {
        return SkippedStamped, cache', disk';
      }
      var should := ctx.transformer.shouldTransform(className, candidateClass.file);
      if should.Thrown? {
        return Failed(Predicate, should.exn), cache', disk';
      }
      if !should.value {
        return SkippedByPredicate, cache', disk';
      }
      var applied := ctx.transformer.applyTransformations(className, candidateClass.file);
      if applied.Thrown? {
        return Failed(Applying, applied.exn), cache', disk';
      }
      // the transformer rewrites the pooled class in place
      candidateClass.file := applied.value;
      var stamped := ApplyStamp(candidateClass);
      cache' := cache'[className := candidateClass.file];
      if stamped.Thrown? {
        return Failed(Stamping, stamped.exn), cache', disk';
      }
      var written := candidateClass.WriteFile(ctx.outDirectory, disk, ctx.env.writeError(ctx.outDirectory, className));
      if written.Thrown? {
        return Failed(Writing, written.exn), cache', disk';
      }
      disk' := written.value;
      status := Written;
    }

    /**
     * One turn of the while loop: classNames.next(), then the try block for
     * a non-null name and the catch clauses' decision whether the loop goes on.
     */
    method TransformItem(ctx: Context, disk: Disk, cache: map<string, ClassFile>, ghost log: seq<Visit>,
                         item: Outcome<Option<string>>)
      returns (written: bool, cache': map<string, ClassFile>, disk': Disk, thrown: Option<Exn>, ghost log': seq<Visit>)
      requires ctx.stampName == StampFieldName(runtimeClassName)
      ensures ProcessItem(ctx, Run(disk, cache, log, None), item) == Run(disk', cache', log', thrown)
      ensures CountWritten(log') == CountWritten(log) + (if written then 1 else 0)
    {
      written, cache', disk', thrown, log' := false, cache, disk, None, log;
      if item.Thrown? {
        thrown := Some(item.exn);
        return;
      }
      if item.value.None? {
        return;
      }
      var className := item.value.value;
      var status;
      status, cache', disk' := TransformClass(ctx, disk, cache, className);
      log' := log + [Visit(className, status)];
      assert log'[..|log'| - 1] == log;
      written := status == Written;
      if status.Failed? && !Contained(status.exn) {
        thrown := Some(status.exn);
      }
    }

    /**
     * transform(transformer, inputDir, outputDir, classNames). Returns the
     * class counter, the disk afterwards and the exception that left the
     * method, if any.
     */
    method Transform(transformer: Option<Transformer>, inputDir: Option<string>, outputDir: Option<string>,
                     classNames: Option<seq<Outcome<Option<string>>>>, disk: Disk, env: Env)
      returns (classCounter: nat, disk': Disk, thrown: Option<Exn>)
      ensures var r := TransformSpec(runtimeClassName, transformer, inputDir, outputDir, classNames, disk, env);
              classCounter == CountWritten(r.log) && disk' == r.disk && thrown == r.escaped
    {
      disk' := disk;
      classCounter := 0;
      thrown := None;
      if transformer.None? {
        return;
      }
      if inputDir.None? || IsBlank(inputDir.value) {
        return;
      }
      if classNames.None? || |classNames.value| == 0 {
        return;
      }
      var inDirectory := Trim(inputDir.value);
      var classPool := ConfigureClassPool(inDirectory, env);
      if classPool.Thrown? {
        // rethrown as RuntimeException
        return 0, disk, Some(Unchecked);
      }
      var outDirectory := EvaluateOutputDirectory(outputDir, Some(inDirectory));
      if outDirectory.Thrown? {
        return 0, disk, Some(outDirectory.exn);
      }
      var ctx := Context(transformer.value, classPool.value, outDirectory.value, StampFieldName(runtimeClassName), env);
      classCounter, disk', thrown := TransformClasses(ctx, classNames.value, disk);
    }

    /** The while loop of transform over the class names, with the pool and output directory set up. */
    method TransformClasses(ctx: Context, names: seq<Outcome<Option<string>>>, disk: Disk)
      returns (classCounter: nat, disk': Disk, thrown: Option<Exn>)
      requires ctx.stampName == StampFieldName(runtimeClassName)
      ensures var r := RunLoop(ctx, names, Start(disk));
              classCounter == CountWritten(r.log) && disk' == r.disk && thrown == r.escaped
    {
      classCounter, disk', thrown := 0, disk, None;
      var cache: map<string, ClassFile> := map[];
      ghost var log: seq<Visit> := [];
      var i := 0;
      while i < |names|
        invariant 0 <= i <= |names|
        invariant RunLoop(ctx, names[..i], Start(disk)) == Run(disk', cache, log, None)
        invariant classCounter == CountWritten(log) && thrown.None?
      {
        RunLoopExtend(ctx, names, Start(disk), i);
        var written;
        written, cache, disk', thrown, log := TransformItem(ctx, disk', cache, log, names[i]);
        if written {
          classCounter := classCounter + 1;
        }
        if thrown.Some? {
          EscapedRunIsFinal(ctx, names, Start(disk), i + 1);
          assert names[..|names|] == names;
          return;
        }
        i := i + 1;
      }
      assert names[..i] == names;
    }

    /** transform(transformer, inputDir, outputDir): the input directory is listed before any guard. */
    method TransformDirectories(transformer: Option<Transformer>, inputDir: Option<string>, outputDir: Option<string>,
                                disk: Disk, env: Env)
      returns (disk': Disk, thrown: Option<Exn>)
      ensures var r := TransformDirectoriesSpec(runtimeClassName, transformer, inputDir, outputDir, disk, env);
              disk' == r.disk && thrown == r.escaped
    {
      var classNames := IterateClassnames(inputDir, disk, env);
      if classNames.Thrown? {
        return disk, Some(classNames.exn);
      }
      var classCounter;
      classCounter, disk', thrown := Transform(transformer, inputDir, outputDir, Some(classNames.value), disk, env);
    }

    /** transform(transformer, directory): input and output are the same directory. */
    method TransformDirectory(transformer: Option<Transformer>, directory: Option<string>, disk: Disk, env: Env)
      returns (disk': Disk, thrown: Option<Exn>)
      ensures var r := TransformDirectoriesSpec(runtimeClassName, transformer, directory, directory, disk, env);
              disk' == r.disk && thrown == r.escaped
    {
      disk', thrown := TransformDirectories(transformer, directory, directory, disk, env);
    }

    /** execute(transformer): one transformer against the configured input and output directories. */
    method ExecuteTransformer(transformer: Option<Transformer>, disk: Disk, env: Env) returns (disk': Disk, thrown: Option<Exn>)
      ensures var r := TransformDirectoriesSpec(runtimeClassName, transformer, inputDirectory, outputDirectory, disk, env);
              disk' == r.disk && thrown == r.escaped
    {
      disk', thrown := TransformDirectories(transformer, GetInputDirectory(), GetOutputDirectory(), disk, env);
    }

    /** execute(): every configured transformer in turn, against the configured directories. */
    method Execute(disk: Disk, env: Env) returns (disk': Disk, thrown: Option<Exn>)
      ensures (disk', thrown) == ExecuteSpec(runtimeClassName, transformerInstances, inputDirectory, outputDirectory, disk, env)
    {
      disk' := disk;
      thrown := None;
      var transformers := transformerInstances;
      for k := 0 to |transformers|
        invariant ExecuteSpec(runtimeClassName, transformers[..k], inputDirectory, outputDirectory, disk, env) == (disk', None)
        invariant thrown.None?
      {
        assert transformers[..k + 1][..k] == transformers[..k];
        disk', thrown := ExecuteTransformer(transformers[k], disk', env);
        if thrown.Some? {
          ExecuteStopsAtEscape(runtimeClassName, transformers, inputDirectory, outputDirectory, disk, env, k + 1);
          assert transformers[..|transformers|] == transformers;
          return;
        }
      }
      assert transformers[..|transformers|] == transformers;
    }
  }
}
