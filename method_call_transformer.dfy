/*
 * The example transformer de.icongmbh.oss.maven.plugin.javassist.example.transformer.MethodCallClassTransformer:
 * it replaces method calls by Javassist statements looked up in its
 * properties, and marks every class it transformed with a public static
 * final boolean field so that it never offers to transform it again.
 */
module MethodCallTransformer {
  import opened JavaLang
  import opened Javassist
  import opened TransformRun

  /** Separates the class name from the method name in a property key. */
  const METHOD_TOKEN := '#'

  /** The marker field: "__introspected__" followed by the transformer's simple class name. */
  const INTROSPECTED_FIELD_NAME := "__introspected__" + "MethodCallClassTransformer"

  /** The marker: boolean, public static final, initialised to true. */
  const MARKER_FIELD := Field(BooleanType, PUBLIC | STATIC | FINAL, ConstantBool(true))

  /** The property keys getStatement consults, in order, for a call of `methodName` on `className`. */
  function MethodKey(className: Option<string>, methodName: Option<string>): string {
    ToJavaString(className) + [METHOD_TOKEN] + ToJavaString(methodName)
  }

  function ClassKey(className: Option<string>): string {
    ToJavaString(className) + [METHOD_TOKEN]
  }

  function MethodNameKey(methodName: Option<string>): string {
    [METHOD_TOKEN] + ToJavaString(methodName)
  }

  /**
   * getStatement over the transformer's properties (None before configure):
   * nothing without properties or when both names are null; otherwise the
   * first of "Class#method", "Class#" and "#method" that has an entry.
   * String concatenation turns a null name into "null".
   */
  function StatementFor(table: Option<map<string, string>>, className: Option<string>, methodName: Option<string>)
    : (r: Option<string>)
    ensures table.None? || (className.None? && methodName.None?) ==> r == None
    ensures table.Some? && (className.Some? || methodName.Some?) ==>
              var t := table.value;
              (MethodKey(className, methodName) in t ==> r == Some(t[MethodKey(className, methodName)])) &&
              (MethodKey(className, methodName) !in t && ClassKey(className) in t ==> r == Some(t[ClassKey(className)])) &&
              (MethodKey(className, methodName) !in t && ClassKey(className) !in t ==>
                 r == if MethodNameKey(methodName) in t then Some(t[MethodNameKey(methodName)]) else None)
    ensures r.Some? ==> table.Some? && r.value in table.value.Values
  {
    if table.None? || (className.None? && methodName.None?) then None
    else
      var t := table.value;
      if MethodKey(className, methodName) in t then Some(t[MethodKey(className, methodName)])
      else if ClassKey(className) in t then Some(t[ClassKey(className)])
      else if MethodNameKey(methodName) in t then Some(t[MethodNameKey(methodName)])
      else None
  }

  /** A null class name is looked up as the text "null". */
  lemma NullClassNameIsLookedUpAsText(methodName: string, statement: string)
    ensures StatementFor(Some(map["null#" + methodName := statement]), None, Some(methodName)) == Some(statement)
  {
    assert MethodKey(None, Some(methodName)) == "null#" + methodName;
  }

  /**
   * What instrument with the transformer's ExprEditor does to the class's
   * code: each method call that has a statement is replaced by it; all other
   * code stays.
   */
  function Instrument(code: seq<CallSite>, table: Option<map<string, string>>): (r: seq<CallSite>)
    ensures |r| == |code|
  {
    if code == [] then []
    else
      var site := code[0];
      var first := match site
        case Replaced(_) => site
        case Call(c, m) => match StatementFor(table, Some(c), Some(m)) case Some(s) => Replaced(s) case None => site;
      [first] + Instrument(code[1..], table)
  }

  /**
   * Instrument edits call by call: a call with a statement is replaced by
   * it, every other call site stays where it was.
   */
  lemma {:induction false} InstrumentPointwise(code: seq<CallSite>, table: Option<map<string, string>>)
    ensures forall i :: 0 <= i < |code| && code[i].Replaced? ==> Instrument(code, table)[i] == code[i]
    ensures forall i :: 0 <= i < |code| && code[i].Call? ==>
              var statement := StatementFor(table, Some(code[i].className), Some(code[i].methodName));
              Instrument(code, table)[i] == if statement.Some? then Replaced(statement.value) else code[i]
  {
    if code != [] {
      InstrumentPointwise(code[1..], table);
      assert forall i :: 1 <= i < |code| ==> Instrument(code, table)[i] == Instrument(code[1..], table)[i - 1];
    }
  }

  /** Without properties, or with empty ones, instrument changes no code. */
  lemma {:induction false} NoPropertiesNoReplacement(code: seq<CallSite>, table: Option<map<string, string>>)
    requires table.None? || table.value == map[]
    ensures Instrument(code, table) == code
  {
    if code != [] {
      NoPropertiesNoReplacement(code[1..], table);
    }
  }

  /** isIntrospected: CtClass.getField finds the marker, declared or inherited. */
  predicate Introspected(file: ClassFile) {
    INTROSPECTED_FIELD_NAME in file.fields || INTROSPECTED_FIELD_NAME in file.inheritedFields
  }

  /**
   * applyTransformations on a loaded class: instrument the code, then add
   * the marker; a class that already declares the marker makes addField
   * throw DuplicateMemberException, which surfaces as JavassistBuildException.
   */
  function TransformedFile(file: ClassFile, table: Option<map<string, string>>): (r: Outcome<ClassFile>)
    ensures r.Thrown? <==> INTROSPECTED_FIELD_NAME in file.fields
    ensures r.Thrown? ==> r.exn == BuildErr
    ensures r.Ok? ==> INTROSPECTED_FIELD_NAME in r.value.fields && r.value.fields[INTROSPECTED_FIELD_NAME] == MARKER_FIELD &&
                      r.value.fields.Keys == file.fields.Keys + {INTROSPECTED_FIELD_NAME} &&
                      r.value.code == Instrument(file.code, table) &&
                      r.value.isInterface == file.isInterface && r.value.supers == file.supers
  {
    if INTROSPECTED_FIELD_NAME in file.fields then Thrown(BuildErr)
    else Ok(file.(code := Instrument(file.code, table), fields := file.fields[INTROSPECTED_FIELD_NAME := MARKER_FIELD]))
  }

  /** The transformer as the loops see it, with the properties it was configured with. */
  function Hooks(table: Option<map<string, string>>): Transformer {
    Transformer((className: string, file: ClassFile) => Ok(!Introspected(file)),
                (className: string, file: ClassFile) => TransformedFile(file, table))
  }

  /** The marker's access flags obey section 4.5 of the JVM specification, in a class and in an interface. */
  lemma MarkerFieldIsLegal(isInterface: bool)
    ensures IsLegalFieldAccess(MARKER_FIELD.modifiers, isInterface)
  {
  }

  /** A class the transformer transformed is never accepted by it again. */
  lemma TransformedIsDeclinedAfterwards(table: Option<map<string, string>>, className: string, file: ClassFile)
    requires Hooks(table).applyTransformations(className, file).Ok?
    ensures Hooks(table).shouldTransform(className, Hooks(table).applyTransformations(className, file).value) == Ok(false)
  {
  }

  class MethodCallClassTransformer {
    var properties: Properties?

    constructor ()
      ensures properties == null
    {
      properties := null;
    }

    /** The entries the transformer looks statements up in, None before configure. */
    function Table(): Option<map<string, string>>
      reads this, properties
    {
      if properties == null then None else Some(properties.entries)
    }

    /** configure: empty properties for null, otherwise a copy the caller cannot change afterwards. */
    method Configure(properties: Properties?) returns (r: Outcome<()>)
      modifies this
      ensures r == Ok(()) && this.properties != null && fresh(this.properties)
      ensures this.properties.entries == if properties == null then map[] else properties.entries
    {
      if properties == null {
        this.properties := new Properties();
      } else {
        this.properties := properties.Clone();
      }
      r := Ok(());
    }

    /** getStatement */
    function GetStatement(className: Option<string>, methodName: Option<string>): (r: Option<string>)
      reads this, properties
      ensures properties == null ==> r == None
      ensures r.Some? ==> properties != null && r.value in properties.entries.Values
    {
      StatementFor(Table(), className, methodName)
    }

    /** isIntrospected: getField finds the marker, else its NotFoundException means no. */
    function IsIntrospected(candidateClass: CtClass): (r: bool)
      reads candidateClass
      ensures r <==> candidateClass.GetField(INTROSPECTED_FIELD_NAME).Ok?
    {
      Introspected(candidateClass.file)
    }

    /** shouldTransform: a class that is there and does not carry the marker. */
    function ShouldTransform(candidateClass: CtClass?): (r: bool)
      reads candidateClass
      ensures r <==> candidateClass != null && candidateClass.GetField(INTROSPECTED_FIELD_NAME).Thrown?
    {
      candidateClass != null && !IsIntrospected(candidateClass)
    }

    /**
     * applyTransformations: nothing for null; otherwise the class is
     * instrumented in place, then the marker is added. Either way the class
     * is not a candidate any more.
     */
    method ApplyTransformations(classToTransform: CtClass?) returns (r: Outcome<()>)
      modifies classToTransform
      ensures classToTransform == null ==> r == Ok(())
      ensures classToTransform != null ==>
                var expected := TransformedFile(old(classToTransform.file), Table());
                (r.Ok? <==> expected.Ok?) &&
                (r.Ok? ==> classToTransform.file == expected.value) &&
                (r.Thrown? ==> r.exn == BuildErr &&
                               classToTransform.file == old(classToTransform.file).(code := Instrument(old(classToTransform.file.code), Table())))
      ensures classToTransform != null ==> !ShouldTransform(classToTransform)
    {
      if classToTransform == null {
        return Ok(());
      }
      classToTransform.file := classToTransform.file.(code := Instrument(classToTransform.file.code, Table()));
      var added := classToTransform.AddField(INTROSPECTED_FIELD_NAME, MARKER_FIELD);
      if added.Thrown? {
        return Thrown(BuildErr);
      }
      r := Ok(());
    }
  }

  /** configure keeps a copy: what the caller puts into its Properties afterwards is not seen. */
  method ConfigureThenChange(transformer: MethodCallClassTransformer, properties: Properties, key: string, value: string)
    modifies transformer, properties
    ensures transformer.properties != null && transformer.properties.entries == old(properties.entries)
    ensures properties.entries == old(properties.entries)[key := value]
  {
    var configured := transformer.Configure(properties);
    properties.SetProperty(key, value);
  }
}
