/*
 * What the legacy base class promises about a batch, and where it differs
 * from the executor: no failure of a single class ends the batch, a
 * transformer that accepts everything writes every class it can resolve,
 * and nothing keeps it from transforming a class a second time.
 */
module LegacyProperties {
  import opened JavaLang
  import opened Javassist
  import opened TransformRun
  import opened TransformerExecutor
  import opened LegacyClassTransformer

  /** One turn of the legacy loop: how the visited names and the escape evolve. */
  lemma LegacyItemStep(ctx: LegacyContext, run: Run, item: Outcome<Option<string>>)
    ensures var r := LegacyProcessItem(ctx, run, item);
            r.escaped.None? ==>
              run.escaped.None? && item.Ok? &&
              Visited(r.log) == Visited(run.log) + (if item.value.Some? then [item.value.value] else [])
    ensures var r := LegacyProcessItem(ctx, run, item);
            r.escaped.Some? ==> r.escaped == run.escaped || (item.Thrown? && r.escaped == Some(Unchecked))
  {
    if run.escaped.None? && item.Ok? && item.value.Some? {
      var n := item.value.value;
      LogAppend(run.log, Visit(n, LegacyProcessClass(ctx, run.disk, run.cache, n).status));
    }
  }

  /**
   * Only the class-name iterator can end the legacy batch, as a
   * RuntimeException; a run it does not end visits every non-null name in
   * order.
   */
  lemma {:induction false} LegacyOnlyTheIteratorEscapes(ctx: LegacyContext, items: seq<Outcome<Option<string>>>,
                                                       disk: Disk)
    ensures var r := LegacyRunLoop(ctx, items, Start(disk));
            r.escaped.Some? ==> r.escaped == Some(Unchecked) && exists i :: 0 <= i < |items| && items[i].Thrown?
    ensures var r := LegacyRunLoop(ctx, items, Start(disk));
            r.escaped.None? <==> forall i :: 0 <= i < |items| ==> items[i].Ok?
    ensures var r := LegacyRunLoop(ctx, items, Start(disk));
            r.escaped.None? ==> Visited(r.log) == NonNullNames(items)
  {
    if items != [] {
      var prefix := items[..|items| - 1];
      LegacyOnlyTheIteratorEscapes(ctx, prefix, disk);
      LegacyItemStep(ctx, LegacyRunLoop(ctx, prefix, Start(disk)), items[|items| - 1]);
      assert forall i :: 0 <= i < |prefix| ==> prefix[i] == items[i];
    }
  }

  /** filter accepts every class, applyTransformations never throws, and every write succeeds. */
  ghost predicate AcceptsAll(ctx: LegacyContext) {
    (forall n, f :: ctx.transformer.shouldTransform(n, f) == Ok(true)) &&
    (forall n, f :: ctx.transformer.applyTransformations(n, f).Ok?) &&
    (forall d, n :: ctx.env.writeError(d, n).None?)
  }

  /** Every visit so far wrote its class or could not resolve it. */
  predicate WrittenOrUnresolved(log: seq<Visit>) {
    forall i :: 0 <= i < |log| ==> log[i].status == Written || log[i].status == Failed(Resolving, NotFound)
  }

  lemma AcceptAllStep(ctx: LegacyContext, run: Run, item: Outcome<Option<string>>)
    requires AcceptsAll(ctx) && WrittenOrUnresolved(run.log)
    ensures WrittenOrUnresolved(LegacyProcessItem(ctx, run, item).log)
  {
    if run.escaped.None? && item.Ok? && item.value.Some? {
      LegacyProcessClassContract(ctx, run.disk, run.cache, item.value.value);
    }
  }

  /**
   * With a transformer that accepts every class and never fails, the only
   * classes the batch does not write are those it cannot resolve.
   */
  lemma {:induction false} AcceptAllWritesEveryResolvedClass(ctx: LegacyContext, items: seq<Outcome<Option<string>>>,
                                                            disk: Disk)
    requires AcceptsAll(ctx)
    ensures WrittenOrUnresolved(LegacyRunLoop(ctx, items, Start(disk)).log)
  {
    if items != [] {
      var prefix := items[..|items| - 1];
      AcceptAllWritesEveryResolvedClass(ctx, prefix, disk);
      AcceptAllStep(ctx, LegacyRunLoop(ctx, prefix, Start(disk)), items[|items| - 1]);
    }
  }

  /**
   * The legacy class has no stamp: a class that already carries the
   * executor's stamp, loaded fresh and accepted by filter, is transformed
   * and written again, where the executor skips it.
   */
  lemma LegacyIgnoresTheStamp(ctx: LegacyContext, execCtx: Context, disk: Disk, className: string)
    requires execCtx.pool == ctx.pool && execCtx.transformer == ctx.transformer && execCtx.env == ctx.env
    requires Find(ctx.pool, disk, className).Some?
    requires var f := Find(ctx.pool, disk, className).value;
             execCtx.stampName in f.fields &&
             WarmsUp(ctx.pool, disk, map[className := f], f, OBJECT_CLASS_NAME in ctx.env.systemClasses) &&
             ctx.transformer.shouldTransform(className, f) == Ok(true) &&
             ctx.transformer.applyTransformations(className, f).Ok? &&
             ctx.env.writeError(ctx.outDirectory, className).None?
    ensures LegacyProcessClass(ctx, disk, map[], className).status == Written
    ensures NeverOffered(ProcessClass(execCtx, disk, map[], className).status)
  {
    LegacyProcessClassContract(ctx, disk, map[], className);
    ProcessClassSkipsStamped(execCtx, disk, map[], className);
  }
}
