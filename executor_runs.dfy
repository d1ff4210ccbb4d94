/*
 * What the executor promises across whole transform calls: the guard
 * clauses, the listing that comes before them, and the stamp's purpose,
 * that a later run never transforms again what an earlier one wrote.
 */
module ExecutorRuns {
  import opened JavaLang
  import opened Javassist
  import opened TransformRun
  import opened TransformerExecutor
  import opened ExecutorProperties
  import MethodCallTransformer

  /**
   * The guard clauses of transform: without a transformer, without a
   * non-blank input directory or without class names, nothing happens.
   */
  lemma GuardsDoNothing(runtimeClassName: string, transformer: Option<Transformer>,
                        inputDir: Option<string>, outputDir: Option<string>,
                        classNames: Option<seq<Outcome<Option<string>>>>, disk: Disk, env: Env)
    requires transformer.None? || inputDir.None? || IsBlank(inputDir.value) || classNames.None? || classNames.value == []
    ensures var r := TransformSpec(runtimeClassName, transformer, inputDir, outputDir, classNames, disk, env);
            r.disk == disk && r.log == [] && r.escaped.None?
  {
  }

  /**
   * The directory overloads list the input directory before they check
   * anything: a null input directory throws even when the transformer is
   * null, where the guard clauses alone would have done nothing.
   */
  lemma ListingPrecedesGuards(runtimeClassName: string, outputDir: Option<string>, disk: Disk, env: Env)
    ensures TransformDirectoriesSpec(runtimeClassName, None, None, outputDir, disk, env).escaped == Some(Unchecked)
    ensures TransformSpec(runtimeClassName, None, None, outputDir, None, disk, env).escaped.None?
  {
  }

  /**
   * The pool of a run over a non-archive input directory, and the context
   * its loop works in.
   */
  function RunContext(runtimeClassName: string, transformer: Transformer, inDirectory: string,
                      outputDir: Option<string>, env: Env): (ctx: Context)
    requires !IsArchivePath(inDirectory)
    ensures ctx.pool.childFirstLookup && |ctx.pool.paths| > 0 && ctx.pool.paths[0] == DirClassPath(inDirectory)
    ensures ctx.stampName == StampFieldName(runtimeClassName) && ctx.transformer == transformer
  {
    Context(transformer, ConfigureClassPool(inDirectory, env).value,
            EvaluateOutputDirectory(outputDir, Some(inDirectory)).value, StampFieldName(runtimeClassName), env)
  }

  /** Past the guards, a run over a non-archive input directory is the loop in RunContext. */
  lemma TransformIsRunLoop(runtimeClassName: string, transformer: Transformer, inputDir: string,
                           outputDir: Option<string>, names: seq<Outcome<Option<string>>>, disk: Disk, env: Env)
    requires !IsBlank(inputDir) && names != [] && !IsArchivePath(Trim(inputDir))
    ensures TransformSpec(runtimeClassName, Some(transformer), Some(inputDir), outputDir, Some(names), disk, env)
            == RunLoop(RunContext(runtimeClassName, transformer, Trim(inputDir), outputDir, env), names, Start(disk))
  {
  }

  /**
   * Why the stamp exists: when a run writes back into its input directory,
   * a later run of the same executor class, with the same or another
   * transformer, never offers a class the first run wrote to its transformer
   * and never writes it again.
   */
  lemma LaterRunSkipsWrittenClasses(runtimeClassName: string, first: Transformer, second: Transformer,
                                    inputDir: string, outputDir: Option<string>,
                                    names1: seq<Outcome<Option<string>>>, names2: seq<Outcome<Option<string>>>,
                                    disk: Disk, env: Env)
    requires !IsBlank(inputDir) && !IsArchivePath(Trim(inputDir))
    requires EvaluateOutputDirectory(outputDir, Some(Trim(inputDir))) == Ok(Trim(inputDir))
    ensures var r1 := TransformSpec(runtimeClassName, Some(first), Some(inputDir), outputDir, Some(names1), disk, env);
            var r2 := TransformSpec(runtimeClassName, Some(second), Some(inputDir), outputDir, Some(names2), r1.disk, env);
            forall n :: n in WrittenNames(r1.log) ==>
              n !in WrittenNames(r2.log) &&
              forall i :: 0 <= i < |r2.log| && r2.log[i].className == n ==> NeverOffered(r2.log[i].status)
  {
    var r1 := TransformSpec(runtimeClassName, Some(first), Some(inputDir), outputDir, Some(names1), disk, env);
    var r2 := TransformSpec(runtimeClassName, Some(second), Some(inputDir), outputDir, Some(names2), r1.disk, env);
    if names1 != [] && names2 != [] {
      var dir := Trim(inputDir);
      var ctx1 := RunContext(runtimeClassName, first, dir, outputDir, env);
      var ctx2 := RunContext(runtimeClassName, second, dir, outputDir, env);
      TransformIsRunLoop(runtimeClassName, first, inputDir, outputDir, names1, disk, env);
      TransformIsRunLoop(runtimeClassName, second, inputDir, outputDir, names2, r1.disk, env);
      WrittenClassesAreStamped(ctx1, names1, disk);
      forall n | n in WrittenNames(r1.log)
        ensures n !in WrittenNames(r2.log)
        ensures forall i :: 0 <= i < |r2.log| && r2.log[i].className == n ==> NeverOffered(r2.log[i].status)
      {
        InputCopyWins(ctx2.pool, dir, r1.disk, n);
        StampedClassIsNeverOffered(ctx2, names2, r1.disk, n);
      }
    }
  }

  /**
   * The example transformer under the executor: a class the run writes
   * carries both the executor's stamp and the transformer's own marker, with
   * its method calls instrumented.
   */
  lemma WrittenExampleClassIsMarkedTwice(ctx: Context, disk: Disk, cache: map<string, ClassFile>,
                                         className: string, table: Option<map<string, string>>)
    requires ctx.transformer == MethodCallTransformer.Hooks(table)
    requires ProcessClass(ctx, disk, cache, className).status == Written
    ensures var written := ProcessClass(ctx, disk, cache, className).disk[(ctx.outDirectory, className)];
            ctx.stampName in written.fields &&
            MethodCallTransformer.INTROSPECTED_FIELD_NAME in written.fields &&
            MethodCallTransformer.Introspected(written) &&
            written.code == MethodCallTransformer.Instrument(Get(ctx.pool, disk, cache, className).1.value.code, table)
  {
    ProcessClassWrites(ctx, disk, cache, className);
    ProcessClassTransforms(ctx, disk, cache, className);
    var got := Get(ctx.pool, disk, cache, className).1;
    var transformed := MethodCallTransformer.TransformedFile(got.value, table);
    assert ctx.transformer.applyTransformations(className, got.value) == transformed;
  }
}
