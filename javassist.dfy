/*
 * The slice of the Javassist library the executor talks to, at its interface:
 * a compiled class as a record of its declared fields, a CtClass handle that
 * addField/removeField change in place, writeFile onto a modelled disk, and a
 * ClassPool that searches an ordered list of class paths, child first, and
 * caches what it loaded. Bytecode itself is not modelled.
 */
module Javassist {
  import opened JavaLang

  // Field access flags of section 4.5 of the Java Virtual Machine Specification
  // (javassist.bytecode.AccessFlag).
  const PUBLIC: bv16 := 0x0001
  const PRIVATE: bv16 := 0x0002
  const PROTECTED: bv16 := 0x0004
  const STATIC: bv16 := 0x0008
  const FINAL: bv16 := 0x0010
  const VOLATILE: bv16 := 0x0040
  const TRANSIENT: bv16 := 0x0080
  const SYNTHETIC: bv16 := 0x1000
  const ENUM: bv16 := 0x4000

  /**
   * The field access rules of section 4.5 of the Java Virtual Machine
   * Specification: only the flags of its table; at most one of public,
   * private and protected; never final and volatile together; and in an
   * interface, public, static and final all set and nothing else except
   * synthetic.
   */
  predicate IsLegalFieldAccess(flags: bv16, inInterface: bool) {
    var all := PUBLIC | PRIVATE | PROTECTED | STATIC | FINAL | VOLATILE | TRANSIENT | SYNTHETIC | ENUM;
    flags & !all == 0 &&
    (if inInterface then
       flags & (PUBLIC | STATIC | FINAL) == PUBLIC | STATIC | FINAL &&
       flags & !(PUBLIC | STATIC | FINAL | SYNTHETIC) == 0
     else
       flags & (PUBLIC | PRIVATE | PROTECTED) in {0, PUBLIC, PRIVATE, PROTECTED} &&
       flags & (FINAL | VOLATILE) != FINAL | VOLATILE)
  }

  datatype FieldType = BooleanType | OtherType(descriptor: string)

  /** CtField.Initializer: none, Initializer.constant(boolean), or any other kind. */
  datatype Initializer = NoInitializer | ConstantBool(b: bool) | OtherInitializer

  datatype Field = Field(fieldType: FieldType, modifiers: bv16, init: Initializer)

  /** A method call inside the class's code, or the statement an ExprEditor put in its place. */
  datatype CallSite = Call(className: string, methodName: string) | Replaced(statement: string)

  /**
   * What a class file holds, as far as this model needs it. `supers` are the
   * types the superclass walk has to load; `inheritedFields` are the fields
   * reachable through superclasses and interfaces.
   */
  datatype ClassFile = ClassFile(
    isInterface: bool,
    supers: set<string>,
    inheritedFields: map<string, Field>,
    fields: map<string, Field>,
    code: seq<CallSite>)

  /** The file system as class files: (directory, class name) to contents. */
  type Disk = map<(string, string), ClassFile>

  /** A class loaded by a pool, changed in place by the transformations. */
  class CtClass {
    const name: string
    var file: ClassFile

    constructor (name: string, file: ClassFile)
      ensures this.name == name && this.file == file
    {
      this.name := name;
      this.file := file;
    }

    function IsInterface(): bool
      reads this
    {
      file.isInterface
    }

    /** CtClass.getDeclaredField: only fields the class itself declares; NotFoundException otherwise. */
    function GetDeclaredField(fieldName: string): (r: Outcome<Field>)
      reads this
      ensures r.Ok? <==> fieldName in file.fields
      ensures r.Ok? ==> r.value == file.fields[fieldName]
      ensures r.Thrown? ==> r.exn == NotFound
    {
      if fieldName in file.fields then Ok(file.fields[fieldName]) else Thrown(NotFound)
    }

    /** CtClass.getField: declared fields first, then those of superclasses and interfaces. */
    function GetField(fieldName: string): (r: Outcome<Field>)
      reads this
      ensures r.Ok? <==> fieldName in file.fields || fieldName in file.inheritedFields
      ensures fieldName in file.fields ==> r == Ok(file.fields[fieldName])
      ensures r.Thrown? ==> r.exn == NotFound
    {
      if fieldName in file.fields then Ok(file.fields[fieldName])
      else if fieldName in file.inheritedFields then Ok(file.inheritedFields[fieldName])
      else Thrown(NotFound)
    }

    /** CtClass.addField: a field name the class already declares is a DuplicateMemberException. */
    method AddField(fieldName: string, field: Field) returns (r: Outcome<()>)
      modifies this
      ensures fieldName in old(file.fields) ==> r == Thrown(CannotCompile) && file == old(file)
      ensures fieldName !in old(file.fields) ==>
                r == Ok(()) && file == old(file).(fields := old(file.fields)[fieldName := field])
    {
      if fieldName in file.fields {
        r := Thrown(CannotCompile);
      } else {
        file := file.(fields := file.fields[fieldName := field]);
        r := Ok(());
      }
    }

    /** CtClass.removeField: NotFoundException when the class declares no such field. */
    method RemoveField(fieldName: string) returns (r: Outcome<()>)
      modifies this
      ensures fieldName in old(file.fields) ==>
                r == Ok(()) && file == old(file).(fields := old(file.fields) - {fieldName})
      ensures fieldName !in old(file.fields) ==> r == Thrown(NotFound) && file == old(file)
    {
      if fieldName in file.fields {
        file := file.(fields := file.fields - {fieldName});
        r := Ok(());
      } else {
        r := Thrown(NotFound);
      }
    }

    /**
     * CtClass.writeFile(directoryName): stores the current contents under the
     * class's name; `failure` is what the file system throws, if anything.
     */
    method WriteFile(directoryName: string, disk: Disk, failure: Option<Exn>) returns (r: Outcome<Disk>)
      ensures failure.Some? ==> r == Thrown(failure.value)
      ensures failure.None? ==> r == Ok(disk[(directoryName, name) := file])
    {
      if failure.Some? {
        r := Thrown(failure.value);
      } else {
        r := Ok(disk[(directoryName, name) := file]);
      }
    }
  }

  /** One entry of a pool's search path. */
  datatype ClassPath =
    | DirClassPath(directory: string)                        // class files under a directory
    | LoaderClassPath(loaderClasses: map<string, ClassFile>) // what a ClassLoader can load
    | SystemClassPath(systemClasses: map<string, ClassFile>) // the JVM's own class path
    | JarClassPath(jarClasses: map<string, ClassFile>)       // the entries of an opened JAR or ZIP file

  function Lookup(path: ClassPath, disk: Disk, name: string): Option<ClassFile>
  {
    match path
    case DirClassPath(dir) => if (dir, name) in disk then Some(disk[(dir, name)]) else None
    case LoaderClassPath(classes) => if name in classes then Some(classes[name]) else None
    case SystemClassPath(classes) => if name in classes then Some(classes[name]) else None
    case JarClassPath(classes) => if name in classes then Some(classes[name]) else None
  }

  /** Searches `paths` in order: the first entry that has the class wins. */
  function FindIn(paths: seq<ClassPath>, disk: Disk, name: string): Option<ClassFile>
  {
    if paths == [] then None
    else if Lookup(paths[0], disk, name).Some? then Lookup(paths[0], disk, name)
    else FindIn(paths[1..], disk, name)
  }

  /** The search finds nothing exactly when no entry has the class, and otherwise the first entry's copy. */
  lemma {:induction false} FindInIsFirstMatch(paths: seq<ClassPath>, disk: Disk, name: string)
    ensures FindIn(paths, disk, name).None? <==> forall i :: 0 <= i < |paths| ==> Lookup(paths[i], disk, name).None?
    ensures FindIn(paths, disk, name).Some? ==>
              exists i :: 0 <= i < |paths| && FindIn(paths, disk, name) == Lookup(paths[i], disk, name) &&
                          forall j :: 0 <= j < i ==> Lookup(paths[j], disk, name).None?
  {
    if paths != [] {
      FindInIsFirstMatch(paths[1..], disk, name);
      assert forall i :: 1 <= i < |paths| ==> paths[i] == paths[1..][i - 1];
      if Lookup(paths[0], disk, name).None? && FindIn(paths, disk, name).Some? {
        var k :| 0 <= k < |paths[1..]| && FindIn(paths[1..], disk, name) == Lookup(paths[1..][k], disk, name) &&
                 forall j :: 0 <= j < k ==> Lookup(paths[1..][j], disk, name).None?;
        assert forall j :: 0 <= j < k + 1 ==> Lookup(paths[j], disk, name).None?;
      }
    }
  }

  /**
   * A pool: its own class paths in the order they were appended, and the
   * parent pool's. With childFirstLookup the own paths are searched first.
   */
  datatype ClassPool = ClassPool(childFirstLookup: bool, paths: seq<ClassPath>, parent: seq<ClassPath>)

  function Find(pool: ClassPool, disk: Disk, name: string): Option<ClassFile>
  {
    if pool.childFirstLookup then FindIn(pool.paths + pool.parent, disk, name)
    else FindIn(pool.parent + pool.paths, disk, name)
  }

  /**
   * ClassPool.get: the cached class if the pool loaded `name` before in this
   * run, otherwise the class its search finds, which it then caches.
   */
  function Get(pool: ClassPool, disk: Disk, cache: map<string, ClassFile>, name: string)
    : (map<string, ClassFile>, Outcome<ClassFile>)
  {
    if name in cache then (cache, Ok(cache[name]))
    else match Find(pool, disk, name)
      case None => (cache, Thrown(NotFound))
      case Some(f) => (cache[name := f], Ok(f))
  }

  /** Writing the class file of `written` does not change where the search finds any other class. */
  lemma {:induction false} FindInAfterWriteOther(paths: seq<ClassPath>, disk: Disk, directory: string,
                                                written: string, file: ClassFile, name: string)
    requires written != name
    ensures FindIn(paths, disk[(directory, written) := file], name) == FindIn(paths, disk, name)
  {
    if paths != [] {
      FindInAfterWriteOther(paths[1..], disk, directory, written, file, name);
    }
  }

  lemma FindAfterWriteOther(pool: ClassPool, disk: Disk, directory: string,
                            written: string, file: ClassFile, name: string)
    requires written != name
    ensures Find(pool, disk[(directory, written) := file], name) == Find(pool, disk, name)
  {
    FindInAfterWriteOther(pool.paths + pool.parent, disk, directory, written, file, name);
    FindInAfterWriteOther(pool.parent + pool.paths, disk, directory, written, file, name);
  }

  /** Adding a class file never hides a class the search found before. */
  lemma {:induction false} FindInStaysFound(paths: seq<ClassPath>, disk: Disk, key: (string, string),
                                           file: ClassFile, name: string)
    requires FindIn(paths, disk, name).Some?
    ensures FindIn(paths, disk[key := file], name).Some?
  {
    if Lookup(paths[0], disk, name).None? {
      FindInStaysFound(paths[1..], disk, key, file, name);
    }
  }

  lemma FindStaysFound(pool: ClassPool, disk: Disk, key: (string, string), file: ClassFile, name: string)
    requires Find(pool, disk, name).Some?
    ensures Find(pool, disk[key := file], name).Some?
  {
    if pool.childFirstLookup {
      FindInStaysFound(pool.paths + pool.parent, disk, key, file, name);
    } else {
      FindInStaysFound(pool.parent + pool.paths, disk, key, file, name);
    }
  }
}
