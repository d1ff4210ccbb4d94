/*
 * ClassnameExtractor: from the path of a compiled class file to the class's
 * fully qualified name, for one file, for a list, and as an iterator that
 * wraps an iterator of files. Paths are canonical Unix paths; the separator
 * is '/'.
 */
module ClassnameExtractor {
  import opened JavaLang

  /** File.separatorChar */
  const SEPARATOR: char := '/'

  /** A java.io.File, by its canonical path. */
  type File = string

  /** new File(parent, child), as java.io.UnixFileSystem.resolve joins the two paths. */
  function JoinPath(parent: Option<File>, child: string): File
  {
    if parent.None? then child
    else
      var p := if parent.value == "" then "/" else parent.value;
      if child == "" then p
      else if child[0] == SEPARATOR then (if p == "/" then child else p + child)
      else if p == "/" then p + child
      else p + [SEPARATOR] + child
  }

  /** The path CtClass.writeFile(directory) gives the class `className`. */
  function ClassFilePath(directory: File, className: string): File
  {
    directory + [SEPARATOR] + ToPath(className) + ".class"
  }

  /** className.replace('.', File.separatorChar) */
  function ToPath(className: string): (r: string)
    ensures |r| == |className|
    ensures forall i :: 0 <= i < |r| ==> r[i] == if className[i] == '.' then SEPARATOR else className[i]
  {
    if className == [] then [] else [if className[0] == '.' then SEPARATOR else className[0]] + ToPath(className[1..])
  }

  /** s.replace(File.separator, ".") */
  function ReplaceSeparators(s: string): string
  {
    if s == [] then [] else [if s[0] == SEPARATOR then '.' else s[0]] + ReplaceSeparators(s[1..])
  }

  /** ReplaceSeparators changes every separator into '.' and nothing else. */
  lemma {:induction false} ReplaceSeparatorsPointwise(s: string)
    ensures |ReplaceSeparators(s)| == |s|
    ensures forall i :: 0 <= i < |s| ==> ReplaceSeparators(s)[i] == if s[i] == SEPARATOR then '.' else s[i]
  {
    if s != [] {
      ReplaceSeparatorsPointwise(s[1..]);
    }
  }

  /** String.lastIndexOf(char): -1 when absent. */
  function LastIndexOf(s: string, c: char): (r: int)
    ensures -1 <= r < |s|
  {
    if s == [] then -1
    else if s[|s| - 1] == c then |s| - 1
    else LastIndexOf(s[..|s| - 1], c)
  }

  /** LastIndexOf finds the last occurrence of `c`, and -1 exactly when there is none. */
  lemma {:induction false} LastIndexOfIsLast(s: string, c: char)
    ensures LastIndexOf(s, c) >= 0 ==> s[LastIndexOf(s, c)] == c
    ensures forall i :: LastIndexOf(s, c) < i < |s| ==> s[i] != c
  {
    if s != [] && s[|s| - 1] != c {
      LastIndexOfIsLast(s[..|s| - 1], c);
    }
  }

  /**
   * FilenameUtils.removeExtension (commons-io): cuts at the last '.', unless
   * a '/' or '\' comes after it, in which case nothing is cut.
   */
  function RemoveExtension(filename: string): (r: string)
  {
    var extensionPos := LastIndexOf(filename, '.');
    var lastSeparator := if LastIndexOf(filename, '/') > LastIndexOf(filename, '\\')
                         then LastIndexOf(filename, '/') else LastIndexOf(filename, '\\');
    if extensionPos < 0 || lastSeparator > extensionPos then filename
    else filename[..extensionPos]
  }

  /**
   * extractClassNameFromFile: null for a null file. With a parent, the first
   * |parent| + 1 characters of the path are dropped (String.substring, which
   * throws when the path is shorter); then every separator becomes '.' and
   * the extension is removed.
   */
  function ExtractClassNameFromFile(parentDirectory: Option<File>, classFile: Option<File>)
    : (r: Outcome<Option<string>>)
    ensures classFile.None? ==> r == Ok(None)
    ensures r.Thrown? <==> classFile.Some? && parentDirectory.Some? && |classFile.value| < |parentDirectory.value| + 1
    ensures r.Thrown? ==> r.exn == Unchecked
    ensures classFile.Some? && r.Ok? ==> r.value.Some?
  {
    if classFile.None? then Ok(None)
    else
      var path := classFile.value;
      if parentDirectory.Some? && |parentDirectory.value| + 1 > |path| then Thrown(Unchecked)
      else
        var qualifiedFileName := if parentDirectory.Some? then path[|parentDirectory.value| + 1..] else path;
        Ok(Some(RemoveExtension(ReplaceSeparators(qualifiedFileName))))
  }

  /** The names an iterateClassnames iterator hands out, one per wrapped file, in order. */
  function ClassNames(parentDirectory: Option<File>, classFiles: seq<Option<File>>)
    : (r: seq<Outcome<Option<string>>>)
    ensures |r| == |classFiles|
    ensures forall i :: 0 <= i < |r| ==> r[i] == ExtractClassNameFromFile(parentDirectory, classFiles[i])
  {
    seq(|classFiles|, i requires 0 <= i < |classFiles| => ExtractClassNameFromFile(parentDirectory, classFiles[i]))
  }

  /** listClassnames(File, List<File>) */
  method ListClassnames(parentDirectory: Option<File>, classFileList: Option<seq<Option<File>>>)
    returns (r: Outcome<seq<Option<string>>>)
    ensures classFileList.None? ==> r == Ok([])
    ensures classFileList.Some? ==>
              (r.Ok? <==> forall i :: 0 <= i < |classFileList.value| ==>
                                        ExtractClassNameFromFile(parentDirectory, classFileList.value[i]).Ok?)
    ensures classFileList.Some? && r.Ok? ==>
              |r.value| == |classFileList.value| &&
              forall i :: 0 <= i < |r.value| ==>
                Ok(r.value[i]) == ExtractClassNameFromFile(parentDirectory, classFileList.value[i])
    ensures r.Thrown? ==> r.exn == Unchecked
  {
    if classFileList.None? || |classFileList.value| == 0 {
      return Ok([]);
    }
    var files := classFileList.value;
    var list: seq<Option<string>> := [];
    for k := 0 to |files|
      invariant |list| == k
      invariant forall i :: 0 <= i < k ==> ExtractClassNameFromFile(parentDirectory, files[i]) == Ok(list[i])
    {
      var name := ExtractClassNameFromFile(parentDirectory, files[k]);
      if name.Thrown? {
        assert !ExtractClassNameFromFile(parentDirectory, classFileList.value[k]).Ok?;
        return Thrown(Unchecked);
      }
      list := list + [name.value];
    }
    r := Ok(list);
  }

  /** The class name of the relative file `child` under the parent; new File(parent, null) throws NullPointerException. */
  function ResolvedClassName(parentDirectory: Option<File>, child: Option<string>): Outcome<Option<string>>
  {
    if child.None? then Thrown(Unchecked)
    else ExtractClassNameFromFile(parentDirectory, Some(JoinPath(parentDirectory, child.value)))
  }

  /** listClassnames(File, String...): each relative name is resolved against the parent first. */
  method ListClassnamesOf(parentDirectory: Option<File>, classFileList: Option<seq<Option<string>>>)
    returns (r: Outcome<seq<Option<string>>>)
    ensures classFileList.None? ==> r == Ok([])
    ensures classFileList.Some? ==>
              (r.Ok? <==> forall i :: 0 <= i < |classFileList.value| ==>
                                        ResolvedClassName(parentDirectory, classFileList.value[i]).Ok?)
    ensures classFileList.Some? && r.Ok? ==>
              |r.value| == |classFileList.value| &&
              forall i :: 0 <= i < |r.value| ==>
                Ok(r.value[i]) == ResolvedClassName(parentDirectory, classFileList.value[i])
    ensures r.Thrown? ==> r.exn == Unchecked
  {
    if classFileList.None? || |classFileList.value| == 0 {
      return Ok([]);
    }
    var files := classFileList.value;
    var list: seq<Option<string>> := [];
    for k := 0 to |files|
      invariant |list| == k
      invariant forall i :: 0 <= i < k ==> ResolvedClassName(parentDirectory, files[i]) == Ok(list[i])
    {
      var name := ResolvedClassName(parentDirectory, files[k]);
      if name.Thrown? {
        // new File(parent, null) throws NullPointerException
        assert !ResolvedClassName(parentDirectory, classFileList.value[k]).Ok?;
        return Thrown(Unchecked);
      }
      list := list + [name.value];
    }
    r := Ok(list);
  }

  /**
   * The wrapped java.util.Iterator<File>, over a backing list. A list made by
   * Arrays.asList is fixed-size, so its iterator cannot remove.
   */
  class FileIterator {
    var files: seq<Option<File>>
    var cursor: nat
    var lastReturned: int
    const removable: bool

    ghost predicate Valid()
      reads this
    {
      cursor <= |files| && -1 <= lastReturned < cursor
    }

    constructor (files: seq<Option<File>>, removable: bool)
      ensures Valid()
      ensures this.files == files && cursor == 0 && lastReturned == -1 && this.removable == removable
    {
      this.files := files;
      cursor := 0;
      lastReturned := -1;
      this.removable := removable;
    }

    function HasNext(): bool
      reads this
    {
      cursor < |files|
    }

    /** NoSuchElementException past the end. */
    method Next() returns (r: Outcome<Option<File>>)
      requires Valid()
      modifies this
      ensures Valid() && files == old(files)
      ensures old(cursor) < |files| ==>
                r == Ok(files[old(cursor)]) && cursor == old(cursor) + 1 && lastReturned == old(cursor)
      ensures old(cursor) >= |files| ==> r == Thrown(Unchecked) && cursor == old(cursor) && lastReturned == old(lastReturned)
    {
      if cursor < |files| {
        r := Ok(files[cursor]);
        lastReturned := cursor;
        cursor := cursor + 1;
      } else {
        r := Thrown(Unchecked);
      }
    }

    /**
     * Removes the element the last Next returned: IllegalStateException when
     * there is none, UnsupportedOperationException for a fixed-size list.
     */
    method Remove() returns (r: Outcome<()>)
      requires Valid()
      modifies this
      ensures Valid()
      ensures (old(lastReturned) < 0 || !removable) ==>
                r == Thrown(Unchecked) && files == old(files) && cursor == old(cursor) && lastReturned == old(lastReturned)
      ensures old(lastReturned) >= 0 && removable ==>
                r == Ok(()) && files == old(files[..lastReturned] + files[lastReturned + 1..]) &&
                cursor == old(lastReturned) && lastReturned == -1
    {
      if lastReturned < 0 || !removable {
        r := Thrown(Unchecked);
      } else {
        files := files[..lastReturned] + files[lastReturned + 1..];
        cursor := lastReturned;
        lastReturned := -1;
        r := Ok(());
      }
    }
  }

  /** The iterator iterateClassnames returns: it extracts a class name from each file the wrapped iterator hands out. */
  class ClassnameIterator {
    const parentDirectory: Option<File>
    const classFileIterator: FileIterator?

    constructor (parentDirectory: Option<File>, classFileIterator: FileIterator?)
      ensures this.parentDirectory == parentDirectory && this.classFileIterator == classFileIterator
    {
      this.parentDirectory := parentDirectory;
      this.classFileIterator := classFileIterator;
    }

    /** false for a null wrapped iterator; otherwise whatever the wrapped iterator says. */
    function HasNext(): (r: bool)
      reads classFileIterator
      ensures r <==> classFileIterator != null && classFileIterator.cursor < |classFileIterator.files|
    {
      classFileIterator != null && classFileIterator.HasNext()
    }

    /** Takes exactly one file from the wrapped iterator and extracts its class name. */
    method Next() returns (r: Outcome<Option<string>>)
      requires classFileIterator != null ==> classFileIterator.Valid()
      modifies classFileIterator
      ensures classFileIterator == null ==> r == Thrown(Unchecked)
      ensures classFileIterator != null ==>
                classFileIterator.Valid() && classFileIterator.files == old(classFileIterator.files)
      ensures classFileIterator != null && old(classFileIterator.cursor) < |classFileIterator.files| ==>
                r == ExtractClassNameFromFile(parentDirectory, classFileIterator.files[old(classFileIterator.cursor)]) &&
                classFileIterator.cursor == old(classFileIterator.cursor) + 1
      ensures classFileIterator != null && old(classFileIterator.cursor) >= |classFileIterator.files| ==>
                r == Thrown(Unchecked) && classFileIterator.cursor == old(classFileIterator.cursor)
    {
      if classFileIterator == null {
        return Thrown(Unchecked);
      }
      var classFile := classFileIterator.Next();
      if classFile.Thrown? {
        return Thrown(classFile.exn);
      }
      r := ExtractClassNameFromFile(parentDirectory, classFile.value);
    }

    /** Delegates to the wrapped iterator. */
    method Remove() returns (r: Outcome<()>)
      requires classFileIterator != null ==> classFileIterator.Valid()
      modifies classFileIterator
      ensures classFileIterator == null ==> r == Thrown(Unchecked)
      ensures classFileIterator != null ==> classFileIterator.Valid()
      ensures classFileIterator != null && (old(classFileIterator.lastReturned) < 0 || !classFileIterator.removable) ==>
                r == Thrown(Unchecked) && classFileIterator.files == old(classFileIterator.files)
      ensures classFileIterator != null && old(classFileIterator.lastReturned) >= 0 && classFileIterator.removable ==>
                r == Ok(()) &&
                classFileIterator.files == old(classFileIterator.files[..classFileIterator.lastReturned] +
                                               classFileIterator.files[classFileIterator.lastReturned + 1..])
    {
      if classFileIterator == null {
        return Thrown(Unchecked);
      }
      r := classFileIterator.Remove();
    }
  }

  /** iterateClassnames(File, File...): wraps an iterator over the fixed-size list of the array. */
  method IterateClassnamesOf(parentDirectory: Option<File>, classFiles: seq<Option<File>>)
    returns (it: ClassnameIterator)
    ensures fresh(it) && fresh(it.classFileIterator) && it.classFileIterator != null
    ensures it.parentDirectory == parentDirectory && it.classFileIterator.Valid()
    ensures it.classFileIterator.files == classFiles && it.classFileIterator.cursor == 0
    ensures !it.classFileIterator.removable
  {
    var files := new FileIterator(classFiles, false);
    it := new ClassnameIterator(parentDirectory, files);
  }

  /** iterateClassnames(File, Iterator<File>): wraps the given iterator by reference. */
  method IterateClassnames(parentDirectory: Option<File>, classFileIterator: FileIterator?)
    returns (it: ClassnameIterator)
    ensures fresh(it)
    ensures it.parentDirectory == parentDirectory && it.classFileIterator == classFileIterator
  {
    it := new ClassnameIterator(parentDirectory, classFileIterator);
  }

  /**
   * Draining iterateClassnames(File, File...) with hasNext and next, as the
   * transform loops do: the names handed out are ClassNames of the files.
   */
  method DrainClassnamesOf(parentDirectory: Option<File>, classFiles: seq<Option<File>>)
    returns (names: seq<Outcome<Option<string>>>)
    ensures names == ClassNames(parentDirectory, classFiles)
  {
    var it := IterateClassnamesOf(parentDirectory, classFiles);
    var files := it.classFileIterator;
    names := [];
    while it.HasNext()
      invariant files == it.classFileIterator && files != null && fresh(files)
      invariant files.Valid() && files.files == classFiles
      invariant names == ClassNames(parentDirectory, classFiles[..files.cursor])
      decreases |classFiles| - files.cursor
    {
      ghost var k := files.cursor;
      var name := it.Next();
      assert classFiles[..k + 1] == classFiles[..k] + [classFiles[k]];
      ClassNamesAppend(parentDirectory, classFiles[..k], classFiles[k]);
      names := names + [name];
    }
    assert classFiles[..files.cursor] == classFiles;
  }

  /** Extracting one more file appends its name. */
  lemma ClassNamesAppend(parentDirectory: Option<File>, classFiles: seq<Option<File>>, file: Option<File>)
    ensures ClassNames(parentDirectory, classFiles + [file])
            == ClassNames(parentDirectory, classFiles) + [ExtractClassNameFromFile(parentDirectory, file)]
  {
    var l := ClassNames(parentDirectory, classFiles + [file]);
    var r := ClassNames(parentDirectory, classFiles) + [ExtractClassNameFromFile(parentDirectory, file)];
    assert forall i :: 0 <= i < |l| ==> l[i] == r[i];
  }

  /** No '/' and no '\\' in s: nothing removeExtension would take for a directory separator. */
  predicate HasNoSeparator(s: string) {
    forall i :: 0 <= i < |s| ==> s[i] != '/' && s[i] != '\\'
  }

  /** In a name without separators, removeExtension cuts at the last '.'. */
  lemma CutAtLastDot(s: string, k: nat)
    requires k < |s| && s[k] == '.' && HasNoSeparator(s)
    requires forall i :: k < i < |s| ==> s[i] != '.'
    ensures RemoveExtension(s) == s[..k]
  {
    LastIndexOfIsLast(s, '.');
    LastIndexOfIsLast(s, '/');
    LastIndexOfIsLast(s, '\\');
    assert LastIndexOf(s, '.') == k;
    assert LastIndexOf(s, '/') == -1;
    assert LastIndexOf(s, '\\') == -1;
  }

  /** removeExtension strips ".class" from a name with no separator in it. */
  lemma RemoveClassExtension(className: string)
    requires HasNoSeparator(className)
    ensures RemoveExtension(className + ".class") == className
  {
    var s := className + ".class";
    CutAtLastDot(s, |className|);
    assert s[..|className|] == className;
  }

  /** Separators become dots, so a path built by ToPath turns back into the class name. */
  lemma ReplaceSeparatorsOfPath(className: string)
    requires HasNoSeparator(className)
    ensures ReplaceSeparators(ToPath(className) + ".class") == className + ".class"
  {
    ReplaceSeparatorsPointwise(ToPath(className) + ".class");
  }

  /**
   * Round trip with CtClass.writeFile: the class file Javassist writes for
   * `className` under `directory`, listed under that directory, yields
   * `className` again.
   */
  lemma ClassFilePathRoundTrip(directory: File, className: string)
    requires HasNoSeparator(className)
    ensures ExtractClassNameFromFile(Some(directory), Some(ClassFilePath(directory, className))) == Ok(Some(className))
  {
    var path := ClassFilePath(directory, className);
    assert path[|directory| + 1..] == ToPath(className) + ".class";
    ReplaceSeparatorsOfPath(className);
    RemoveClassExtension(className);
  }

  /** A plain name segment: no separator and no dot. */
  predicate IsSimpleName(s: string) {
    forall i :: 0 <= i < |s| ==> s[i] != '/' && s[i] != '\\' && s[i] != '.'
  }

  /** The class file of a class in a one-segment package, under its directory, gives that class's name. */
  lemma ExtractPackagedClassFile(directory: File, packageName: string, simpleName: string)
    requires IsSimpleName(packageName) && IsSimpleName(simpleName)
    ensures ExtractClassNameFromFile(Some(directory), Some(directory + "/" + packageName + "/" + simpleName + ".class"))
            == Ok(Some(packageName + "." + simpleName))
  {
    var className := packageName + "." + simpleName;
    assert ToPath(className) == packageName + "/" + simpleName;
    assert ClassFilePath(directory, className) == directory + "/" + packageName + "/" + simpleName + ".class";
    ClassFilePathRoundTrip(directory, className);
  }

  /** The documented example: /foo/bar/MyClass.class under /foo is bar.MyClass. */
  lemma ExtractNestedClassFile()
    ensures ExtractClassNameFromFile(Some("/foo"), Some("/foo/bar/MyClass.class")) == Ok(Some("bar.MyClass"))
  {
    assert "/foo" + "/" + "bar" + "/" + "MyClass" + ".class" == "/foo/bar/MyClass.class";
    assert "bar" + "." + "MyClass" == "bar.MyClass";
    ExtractPackagedClassFile("/foo", "bar", "MyClass");
  }

  /**
   * A file without an extension loses its last name segment: once the
   * separators are dots, removeExtension takes the class name for the
   * extension.
   */
  lemma ExtractExtensionlessFile(directory: File, packageName: string, simpleName: string)
    requires IsSimpleName(packageName) && IsSimpleName(simpleName)
    ensures ExtractClassNameFromFile(Some(directory), Some(directory + "/" + packageName + "/" + simpleName))
            == Ok(Some(packageName))
  {
    var path := directory + "/" + packageName + "/" + simpleName;
    assert path[|directory| + 1..] == packageName + "/" + simpleName;
    var s := ReplaceSeparators(packageName + "/" + simpleName);
    ReplaceSeparatorsPointwise(packageName + "/" + simpleName);
    assert s == packageName + "." + simpleName;
    CutAtLastDot(s, |packageName|);
    assert s[..|packageName|] == packageName;
  }

  /** The documented instance: /foo/bar/MyClass under /foo is "bar", not a class name. */
  lemma ExtractExtensionlessExample()
    ensures ExtractClassNameFromFile(Some("/foo"), Some("/foo/bar/MyClass")) == Ok(Some("bar"))
  {
    assert "/foo" + "/" + "bar" + "/" + "MyClass" == "/foo/bar/MyClass";
    ExtractExtensionlessFile("/foo", "bar", "MyClass");
  }

  /** A path shorter than the parent and its separator makes substring throw. */
  lemma ExtractOutsideParentThrows(parentDirectory: File, classFile: File)
    requires |classFile| <= |parentDirectory|
    ensures ExtractClassNameFromFile(Some(parentDirectory), Some(classFile)) == Thrown(Unchecked)
  {
  }

  /**
   * listClassnames(File, String...) is extraction of the relative names
   * themselves, when the parent is an ordinary directory path.
   */
  lemma ResolvedChildExtractsRelativeName(parentDirectory: File, child: string)
    requires parentDirectory != "" && parentDirectory != "/"
    requires child != "" && child[0] != SEPARATOR
    ensures ExtractClassNameFromFile(Some(parentDirectory), Some(JoinPath(Some(parentDirectory), child)))
            == ExtractClassNameFromFile(None, Some(child))
  {
    assert JoinPath(Some(parentDirectory), child)[|parentDirectory| + 1..] == child;
  }

  /**
   * With the root directory as parent, the dropped |parent| + 1 characters
   * include the first character of the relative name.
   */
  lemma RootParentDropsFirstCharacter(child: string)
    requires child != "" && child[0] != SEPARATOR
    ensures ExtractClassNameFromFile(Some("/"), Some(JoinPath(Some("/"), child)))
            == ExtractClassNameFromFile(None, Some(child[1..]))
  {
    assert JoinPath(Some("/"), child)[2..] == child[1..];
  }
}
