/*
 * The deprecated example transformer
 * com.github.drochetti.javassist.maven.example.transformer.MethodCallClassTransformer:
 * the same statement lookup as its successor, but no marker, a filter that
 * only rejects null, and properties kept by reference.
 */
module LegacyMethodCallTransformer {
  import opened JavaLang
  import opened Javassist
  import opened TransformRun
  import MethodCallTransformer

  /** The transformer as the legacy loop sees it: filter accepts every class, and nothing marks it. */
  function LegacyHooks(table: Option<map<string, string>>): Transformer {
    Transformer((className: string, file: ClassFile) => Ok(true),
                (className: string, file: ClassFile) => Ok(file.(code := MethodCallTransformer.Instrument(file.code, table))))
  }

  class MethodCallClassTransformer {
    var properties: Properties?

    constructor ()
      ensures properties == null
    {
      properties := null;
    }

    function Table(): Option<map<string, string>>
      reads this, properties
    {
      if properties == null then None else Some(properties.entries)
    }

    /** configure: empty properties for null, otherwise the caller's own object, not a copy. */
    method Configure(properties: Properties?) returns (r: Outcome<()>)
      modifies this
      ensures r == Ok(()) && this.properties != null
      ensures properties != null ==> this.properties == properties
      ensures properties == null ==> fresh(this.properties) && this.properties.entries == map[]
    {
      if properties == null {
        this.properties := new Properties();
      } else {
        this.properties := properties;
      }
      r := Ok(());
    }

    /** filter: false for null, otherwise the base class's answer, which is true. */
    function Filter(candidateClass: CtClass?): (r: Outcome<bool>)
      ensures r == Ok(candidateClass != null)
    {
      if candidateClass == null then Ok(false) else Ok(true)
    }

    /** getStatement: the same lookup as the successor's. */
    function GetStatement(className: Option<string>, methodName: Option<string>): (r: Option<string>)
      reads this, properties
      ensures r == MethodCallTransformer.StatementFor(Table(), className, methodName)
      ensures properties == null ==> r == None
    {
      if properties == null || (className.None? && methodName.None?) then None
      else
        var t := properties.entries;
        var statement := if MethodCallTransformer.MethodKey(className, methodName) in t
                         then Some(t[MethodCallTransformer.MethodKey(className, methodName)])
                         else if MethodCallTransformer.ClassKey(className) in t
                         then Some(t[MethodCallTransformer.ClassKey(className)])
                         else None;
        if statement.None? then
          if MethodCallTransformer.MethodNameKey(methodName) in t
          then Some(t[MethodCallTransformer.MethodNameKey(methodName)]) else None
        else statement
    }

    /** applyTransformations: nothing for null; otherwise the calls are instrumented in place, and no field is added. */
    method ApplyTransformations(classToTransform: CtClass?) returns (r: Outcome<()>)
      modifies classToTransform
      ensures r == Ok(())
      ensures classToTransform != null ==>
                classToTransform.file ==
                  old(classToTransform.file).(code := MethodCallTransformer.Instrument(old(classToTransform.file.code), Table()))
      ensures classToTransform != null ==> classToTransform.file.fields == old(classToTransform.file.fields)
    {
      if classToTransform == null {
        return Ok(());
      }
      classToTransform.file := classToTransform.file.(code := MethodCallTransformer.Instrument(classToTransform.file.code, Table()));
      r := Ok(());
    }
  }

  /**
   * The legacy transformer accepts a class it has already transformed:
   * filter still says yes, and the fields stay as they were, so nothing
   * marks it.
   */
  lemma LegacyAcceptsItsOwnOutput(table: Option<map<string, string>>, className: string, file: ClassFile)
    ensures var hooks := LegacyHooks(table);
            hooks.applyTransformations(className, file).Ok? &&
            hooks.shouldTransform(className, hooks.applyTransformations(className, file).value) == Ok(true) &&
            hooks.applyTransformations(className, file).value.fields == file.fields
  {
  }

  /**
   * configure keeps the caller's object: what the caller puts into its
   * Properties afterwards is what the transformer looks up, where the
   * successor keeps what it was configured with.
   */
  method ConfigureThenChange(legacy: MethodCallClassTransformer, current: MethodCallTransformer.MethodCallClassTransformer,
                             properties: Properties, key: string, value: string)
    returns (legacySees: bool, currentSees: bool)
    requires key !in properties.entries
    modifies legacy, current, properties
    ensures legacySees && !currentSees
  {
    var configured := legacy.Configure(properties);
    configured := current.Configure(properties);
    properties.SetProperty(key, value);
    legacySees := legacy.properties != null && key in legacy.properties.entries;
    currentSees := current.properties != null && key in current.properties.entries;
  }
}
