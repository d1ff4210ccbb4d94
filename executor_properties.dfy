/*
 * What the executor promises about a run as a whole: where the search finds
 * a class, what a run leaves on the disk, that a stamped class is never
 * transformed again, that contained failures do not stop the batch, and that
 * running the same transformation twice writes nothing the second time.
 */
module ExecutorProperties {
  import opened JavaLang
  import opened Javassist
  import opened TransformRun
  import opened TransformerExecutor

  /** The stamp's access flags obey the field rules of section 4.5 of the JVM specification. */
  lemma StampModifiersAreLegal(isInterface: bool)
    ensures IsLegalFieldAccess(StampModifiers(isInterface), isInterface)
  {
  }

  /**
   * The effective output directory of a run over a non-blank input
   * directory is never blank, and evaluating it again gives it back.
   */
  lemma EffectiveOutputDirectory(outputDir: Option<string>, inputDir: string)
    requires !IsBlank(inputDir)
    ensures var r := EvaluateOutputDirectory(outputDir, Some(inputDir));
            r.Ok? && !IsBlank(r.value) && EvaluateOutputDirectory(Some(r.value), Some(inputDir)) == r
  {
    TrimOfNonBlank(inputDir);
  }

  /** With child-first lookup, a copy in the pool's first class path wins. */
  lemma InputCopyWins(pool: ClassPool, directory: string, disk: Disk, name: string)
    requires pool.childFirstLookup && |pool.paths| > 0 && pool.paths[0] == DirClassPath(directory)
    requires (directory, name) in disk
    ensures Find(pool, disk, name) == Some(disk[(directory, name)])
  {
    assert (pool.paths + pool.parent)[0] == DirClassPath(directory);
  }

  /**
   * The pool of a run searches the input directory, then what the context
   * class loader can load, then the system class path.
   */
  lemma ClassPoolSearchOrder(inputDir: string, env: Env, disk: Disk, name: string)
    requires !IsArchivePath(inputDir)
    ensures ConfigureClassPool(inputDir, env).Ok?
    ensures Find(ConfigureClassPool(inputDir, env).value, disk, name) ==
            if (inputDir, name) in disk then Some(disk[(inputDir, name)])
            else if name in env.loaderClasses then Some(env.loaderClasses[name])
            else if name in env.systemClasses then Some(env.systemClasses[name])
            else None
  {
    var pool := ConfigureClassPool(inputDir, env).value;
    var paths := pool.paths + pool.parent;
    assert paths == [DirClassPath(inputDir), LoaderClassPath(env.loaderClasses),
                     SystemClassPath(env.systemClasses), SystemClassPath(env.systemClasses)];
    var rest1 := paths[1..];
    var rest2 := rest1[1..];
    var rest3 := rest2[1..];
    assert rest3 == [SystemClassPath(env.systemClasses)] && rest3[1..] == [];
    assert FindIn(rest3, disk, name) == Lookup(SystemClassPath(env.systemClasses), disk, name);
    assert FindIn(rest2, disk, name) == Lookup(SystemClassPath(env.systemClasses), disk, name);
    assert FindIn(rest1, disk, name) == if name in env.loaderClasses then Some(env.loaderClasses[name]) else FindIn(rest2, disk, name);
  }

  /**
   * What a run leaves on the disk, relative to the disk it started with:
   * every class it wrote, stamped, in the output directory; every other file
   * as it was.
   */
  ghost predicate WrittenStamped(ctx: Context, disk: Disk, r: Run) {
    (forall n :: n in WrittenNames(r.log) ==>
       (ctx.outDirectory, n) in r.disk && ctx.stampName in r.disk[(ctx.outDirectory, n)].fields) &&
    disk.Keys <= r.disk.Keys &&
    (forall key :: key in r.disk && (key.0 != ctx.outDirectory || key.1 !in WrittenNames(r.log)) ==>
       key in disk && r.disk[key] == disk[key])
  }

  /** The written-stamped property survives one more stamped write to the output directory. */
  lemma WrittenStampedAfterWrite(ctx: Context, disk: Disk, run: Run, r: Run, n: string)
    requires WrittenStamped(ctx, disk, run)
    requires (ctx.outDirectory, n) in r.disk && ctx.stampName in r.disk[(ctx.outDirectory, n)].fields
    requires r.disk == run.disk[(ctx.outDirectory, n) := r.disk[(ctx.outDirectory, n)]]
    requires WrittenNames(r.log) == WrittenNames(run.log) + {n}
    ensures WrittenStamped(ctx, disk, r)
  {
    forall k | k in r.disk && (k.0 != ctx.outDirectory || k.1 !in WrittenNames(r.log))
      ensures k in disk && r.disk[k] == disk[k]
    {
      assert k != (ctx.outDirectory, n);
    }
  }

  /** The shape of one turn of the loop: a non-null name adds one visit and takes ProcessClass's disk and cache. */
  lemma ItemShape(ctx: Context, run: Run, item: Outcome<Option<string>>)
    ensures var r := ProcessItem(ctx, run, item);
            if run.escaped.None? && item.Ok? && item.value.Some? then
              var step := ProcessClass(ctx, run.disk, run.cache, item.value.value);
              r.disk == step.disk && r.cache == step.cache && r.log == run.log + [Visit(item.value.value, step.status)]
            else
              r.disk == run.disk && r.cache == run.cache && r.log == run.log
  {
  }

  lemma WrittenStampedStep(ctx: Context, disk: Disk, run: Run, item: Outcome<Option<string>>)
    requires WrittenStamped(ctx, disk, run)
    ensures WrittenStamped(ctx, disk, ProcessItem(ctx, run, item))
  {
    var r := ProcessItem(ctx, run, item);
    ItemShape(ctx, run, item);
    if run.escaped.None? && item.Ok? && item.value.Some? {
      var n := item.value.value;
      var step := ProcessClass(ctx, run.disk, run.cache, n);
      ProcessClassWrites(ctx, run.disk, run.cache, n);
      LogAppend(run.log, Visit(n, step.status));
      if step.status == Written {
        WrittenStampedAfterWrite(ctx, disk, run, r, n);
      }
    }
  }

  lemma {:induction false} WrittenClassesAreStamped(ctx: Context, items: seq<Outcome<Option<string>>>, disk: Disk)
    ensures WrittenStamped(ctx, disk, RunLoop(ctx, items, Start(disk)))
  {
    if items != [] {
      WrittenClassesAreStamped(ctx, items[..|items| - 1], disk);
      WrittenStampedStep(ctx, disk, RunLoop(ctx, items[..|items| - 1], Start(disk)), items[|items| - 1]);
    }
  }

  /** The search for `name` finds, if anything, a stamped class. */
  predicate FoundStamped(ctx: Context, disk: Disk, name: string) {
    Find(ctx.pool, disk, name).Some? ==> ctx.stampName in Find(ctx.pool, disk, name).value.fields
  }

  /** `name` has only been skipped so far, its search result is as at the start, and the pool holds it stamped. */
  predicate OnlySkipped(ctx: Context, disk: Disk, name: string, r: Run) {
    (forall i :: 0 <= i < |r.log| && r.log[i].className == name ==> NeverOffered(r.log[i].status)) &&
    name !in WrittenNames(r.log) &&
    Find(ctx.pool, r.disk, name) == Find(ctx.pool, disk, name) &&
    (name in r.cache ==> ctx.stampName in r.cache[name].fields)
  }

  /** A visit of the stamped class itself skips it and leaves the disk alone. */
  lemma OnlySkippedVisit(ctx: Context, disk: Disk, name: string, run: Run)
    requires FoundStamped(ctx, disk, name) && OnlySkipped(ctx, disk, name, run)
    ensures var step := ProcessClass(ctx, run.disk, run.cache, name);
            NeverOffered(step.status) && step.disk == run.disk &&
            (name in step.cache ==> ctx.stampName in step.cache[name].fields)
  {
    var got := Get(ctx.pool, run.disk, run.cache, name).1;
    if got.Ok? {
      ProcessClassSkipsStamped(ctx, run.disk, run.cache, name);
    } else {
      assert ProcessClass(ctx, run.disk, run.cache, name).status == Failed(Resolving, got.exn);
    }
  }

  /** A visit of another class keeps where the stamped class is found and how the pool holds it. */
  lemma OnlySkippedOtherVisit(ctx: Context, disk: Disk, name: string, run: Run, n: string)
    requires n != name && OnlySkipped(ctx, disk, name, run)
    ensures var step := ProcessClass(ctx, run.disk, run.cache, n);
            Find(ctx.pool, step.disk, name) == Find(ctx.pool, disk, name) &&
            (name in step.cache ==> ctx.stampName in step.cache[name].fields)
  {
    var step := ProcessClass(ctx, run.disk, run.cache, n);
    ProcessClassWrites(ctx, run.disk, run.cache, n);
    ProcessClassCaches(ctx, run.disk, run.cache, n);
    if step.status == Written {
      FindAfterWriteOther(ctx.pool, run.disk, ctx.outDirectory, n, step.disk[(ctx.outDirectory, n)], name);
    }
  }

  lemma OnlySkippedStep(ctx: Context, disk: Disk, name: string, run: Run, item: Outcome<Option<string>>)
    requires FoundStamped(ctx, disk, name) && OnlySkipped(ctx, disk, name, run)
    ensures OnlySkipped(ctx, disk, name, ProcessItem(ctx, run, item))
  {
    ItemShape(ctx, run, item);
    if run.escaped.None? && item.Ok? && item.value.Some? {
      var n := item.value.value;
      var step := ProcessClass(ctx, run.disk, run.cache, n);
      var r := ProcessItem(ctx, run, item);
      LogAppend(run.log, Visit(n, step.status));
      if n == name {
        OnlySkippedVisit(ctx, disk, name, run);
      } else {
        OnlySkippedOtherVisit(ctx, disk, name, run, n);
      }
      assert r.log[|run.log|] == Visit(n, step.status);
    }
  }

  /**
   * A class that carries the stamp when the run starts is never offered to
   * the transformer in that run, however often its name comes up, and is
   * never written.
   */
  lemma {:induction false} StampedClassIsNeverOffered(ctx: Context, items: seq<Outcome<Option<string>>>,
                                                     disk: Disk, name: string)
    requires FoundStamped(ctx, disk, name)
    ensures var r := RunLoop(ctx, items, Start(disk));
            (forall i :: 0 <= i < |r.log| && r.log[i].className == name ==> NeverOffered(r.log[i].status)) &&
            name !in WrittenNames(r.log)
  {
    StampedClassStaysSkipped(ctx, items, disk, name);
  }

  lemma {:induction false} StampedClassStaysSkipped(ctx: Context, items: seq<Outcome<Option<string>>>,
                                                   disk: Disk, name: string)
    requires FoundStamped(ctx, disk, name)
    ensures OnlySkipped(ctx, disk, name, RunLoop(ctx, items, Start(disk)))
  {
    if items != [] {
      StampedClassStaysSkipped(ctx, items[..|items| - 1], disk, name);
      OnlySkippedStep(ctx, disk, name, RunLoop(ctx, items[..|items| - 1], Start(disk)), items[|items| - 1]);
    }
  }

  /** One turn of the loop that no exception leaves adds at most one visit, of the name it was given. */
  lemma ItemStep(ctx: Context, run: Run, item: Outcome<Option<string>>)
    ensures var r := ProcessItem(ctx, run, item);
            r.escaped.None? ==>
              run.escaped.None? && item.Ok? &&
              Visited(r.log) == Visited(run.log) + (if item.value.Some? then [item.value.value] else [])
  {
    if run.escaped.None? && item.Ok? && item.value.Some? {
      var n := item.value.value;
      var step := ProcessClass(ctx, run.disk, run.cache, n);
      LogAppend(run.log, Visit(n, step.status));
    }
  }

  /** One turn of the loop that no exception leaves records only a contained failure. */
  lemma ContainedStep(ctx: Context, run: Run, item: Outcome<Option<string>>)
    ensures var r := ProcessItem(ctx, run, item);
            r.escaped.None? ==>
              run.escaped.None? &&
              (forall i :: 0 <= i < |r.log| && r.log[i].status.Failed? && !Contained(r.log[i].status.exn) ==> i < |run.log|)
  {
  }

  /** One turn of the loop that an exception leaves: it escaped before, or comes from the iterator, or is unchecked. */
  lemma EscapeStep(ctx: Context, run: Run, item: Outcome<Option<string>>)
    ensures var r := ProcessItem(ctx, run, item);
            r.escaped.Some? ==> r.escaped == run.escaped || item == Thrown(r.escaped.value) || r.escaped == Some(Unchecked)
  {
  }

  /**
   * Contained failures do not stop the batch: a run that no exception left
   * visited every non-null name in order.
   */
  lemma {:induction false} FailuresDoNotStopTheBatch(ctx: Context, items: seq<Outcome<Option<string>>>, disk: Disk)
    ensures var r := RunLoop(ctx, items, Start(disk));
            r.escaped.None? ==>
              (forall i :: 0 <= i < |items| ==> items[i].Ok?) &&
              Visited(r.log) == NonNullNames(items)
  {
    if items != [] {
      var prefix, last := items[..|items| - 1], items[|items| - 1];
      var prev := RunLoop(ctx, prefix, Start(disk));
      var r := ProcessItem(ctx, prev, last);
      assert RunLoop(ctx, items, Start(disk)) == r;
      if r.escaped.None? {
        ItemStep(ctx, prev, last);
        FailuresDoNotStopTheBatch(ctx, prefix, disk);
        assert NonNullNames(items) == NonNullNames(prefix) + (if last.value.Some? then [last.value.value] else []);
        assert forall i :: 0 <= i < |prefix| ==> prefix[i] == items[i];
      }
    }
  }

  /** Every failure recorded in a run that no exception left is of a contained kind. */
  lemma {:induction false} RecordedFailuresAreContained(ctx: Context, items: seq<Outcome<Option<string>>>, disk: Disk)
    ensures var r := RunLoop(ctx, items, Start(disk));
            r.escaped.None? ==>
              forall i :: 0 <= i < |r.log| && r.log[i].status.Failed? ==> Contained(r.log[i].status.exn)
  {
    if items != [] {
      var prefix := items[..|items| - 1];
      RecordedFailuresAreContained(ctx, prefix, disk);
      ContainedStep(ctx, RunLoop(ctx, prefix, Start(disk)), items[|items| - 1]);
    }
  }

  /** An exception that did leave the loop came from the name iterator or is unchecked. */
  lemma {:induction false} EscapesAreIteratorOrUnchecked(ctx: Context, items: seq<Outcome<Option<string>>>, disk: Disk)
    ensures var r := RunLoop(ctx, items, Start(disk));
            r.escaped.Some? ==>
              r.escaped == Some(Unchecked) || exists i :: 0 <= i < |items| && items[i] == Thrown(r.escaped.value)
  {
    if items != [] {
      var prefix := items[..|items| - 1];
      var prev := RunLoop(ctx, prefix, Start(disk));
      var r := RunLoop(ctx, items, Start(disk));
      EscapesAreIteratorOrUnchecked(ctx, prefix, disk);
      EscapeStep(ctx, prev, items[|items| - 1]);
      if r.escaped.Some? && r.escaped != Some(Unchecked) {
        if r.escaped == prev.escaped {
          var i :| 0 <= i < |prefix| && prefix[i] == Thrown(r.escaped.value);
          assert items[i] == prefix[i];
        } else {
          assert items[|items| - 1] == Thrown(r.escaped.value);
        }
      }
    }
  }

  /** No call in the run throws an unchecked exception. */
  ghost predicate NeverUnchecked(ctx: Context) {
    (forall n, f :: ctx.transformer.shouldTransform(n, f) != Thrown(Unchecked)) &&
    (forall n, f :: ctx.transformer.applyTransformations(n, f) != Thrown(Unchecked)) &&
    (forall d, n :: ctx.env.writeError(d, n) != Some(Unchecked))
  }

  lemma NoUncheckedStep(ctx: Context, run: Run, item: Outcome<Option<string>>)
    requires NeverUnchecked(ctx) && run.escaped.None? && item.Ok?
    ensures ProcessItem(ctx, run, item).escaped.None?
  {
  }

  /** When neither the iterator nor any call throws an unchecked exception, no exception leaves the loop. */
  lemma {:induction false} NoUncheckedNoEscape(ctx: Context, items: seq<Outcome<Option<string>>>, disk: Disk)
    requires NeverUnchecked(ctx)
    requires forall i :: 0 <= i < |items| ==> items[i].Ok?
    ensures RunLoop(ctx, items, Start(disk)).escaped.None?
  {
    if items != [] {
      var prefix := items[..|items| - 1];
      NoUncheckedNoEscape(ctx, prefix, disk);
      NoUncheckedStep(ctx, RunLoop(ctx, prefix, Start(disk)), items[|items| - 1]);
    }
  }
}
