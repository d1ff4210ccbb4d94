# javassist-maven-plugin: the batch transform loop, in Dafny

This project models the core of javassist-maven-plugin, a Maven plugin that
rewrites compiled `.class` files with Javassist after compilation. It covers
five parts of the plugin:

- **The transformer executor** (`JavassistTransformerExecutor`):
  - It holds the transformers and the input and output directories, all set
    through setters.
  - For each transformer, it lists the class files under the input
    directory and turns their paths into class names.
  - It loads each class through a fresh child-first class pool.
  - It skips classes that carry its stamp field or that the transformer
    declines.
  - Every other class is transformed, stamped with a private or public
    `static final boolean` field, and written to the effective output
    directory.
  - Per-class failures are contained and counted out.
- **The legacy base class** (`com.github.drochetti…ClassTransformer`): the
  same loop with no stamp and with a catch-all per class.
- **Class-name extraction** (`ClassnameExtractor`): path-to-name rewriting,
  the order-preserving list mappers, and the lazy iterator wrapper.
- **The current example transformer** (`MethodCallClassTransformer`): the
  three-step statement lookup (`Class#method`, then `Class#`, then
  `#method`), the copy made by `configure`, and the introspection marker.
- **The legacy example transformer**: the same lookup, with `configure`
  keeping the caller's `Properties` by reference and `filter` accepting
  every non-null class.

How the pieces are modelled:

| piece | Dafny form |
|---|---|
| Class file | the value `ClassFile`: declared fields by name, inherited field names, direct supertypes, interface flag, and method-call sites |
| `CtClass` | a class around one `ClassFile` that `addField`/`removeField` update in place |
| Disk | a map from (directory, class name) to class file |
| Class pool | an ordered list of sources searched child-first before the parent's, plus a cache of loaded classes |
| Transformer | a pair of total functions returning an `Outcome`: `Ok`, or an exception kind (NotFound, IO, CannotCompile, JavassistBuild, unchecked) |
| Class-name iterator | a sequence of outcomes, so that `next()` can throw |
| Batch loop | a specification function over that sequence, which the `while`-loop methods are proved equal to |

Each run leaves a log of visits: the class name and what became of it. The
properties of the loop are proved about this log.

## Model

| member | source | states |
|---|---|---|
| JavaLang.Trim | src/main/java/de/icongmbh/oss/maven/plugin/javassist/JavassistTransformerExecutor.java:238-244 | String.trim: the result is empty exactly when the string is blank, and otherwise neither end is a trimmable character; the result is the untrimmed string minus blank ends |
| JavaLang.TrimStart | src/main/java/de/icongmbh/oss/maven/plugin/javassist/JavassistTransformerExecutor.java:244 | drops exactly a blank prefix, leaving a suffix that does not start with a trimmable character |
| JavaLang.TrimEnd | src/main/java/de/icongmbh/oss/maven/plugin/javassist/JavassistTransformerExecutor.java:244 | drops exactly a blank suffix, leaving a prefix that does not end with a trimmable character |
| JavaLang.TrimIsIdempotent | src/main/java/de/icongmbh/oss/maven/plugin/javassist/JavassistTransformerExecutor.java:306-308 | trimming the already-trimmed input directory again changes nothing |
| JavaLang.TrimOfNonBlank | src/main/java/de/icongmbh/oss/maven/plugin/javassist/JavassistTransformerExecutor.java:238-244 | an input directory that passes the blank guard is still non-blank after trim |
| JavaLang.ReplaceNonWord | src/main/java/de/icongmbh/oss/maven/plugin/javassist/JavassistTransformerExecutor.java:454 | replaceAll("\\W", "_"): same length, word characters kept, every other character becomes `_` |
| JavaLang.ToJavaString | src/main/java/de/icongmbh/oss/maven/plugin/javassist/example/transformer/MethodCallClassTransformer.java:170 | string concatenation of a non-null value yields the value itself |
| JavaLang.Properties.constructor | src/main/java/de/icongmbh/oss/maven/plugin/javassist/example/transformer/MethodCallClassTransformer.java:115-116 | new Properties() has no entries |
| JavaLang.Properties.GetProperty | src/main/java/de/icongmbh/oss/maven/plugin/javassist/example/transformer/MethodCallClassTransformer.java:170-174 | a value exactly when the key is present, and then the stored value |
| JavaLang.Properties.SetProperty | src/main/java/de/icongmbh/oss/maven/plugin/javassist/example/transformer/MethodCallClassTransformer.java:114-117 | the entries afterwards are the old ones with the key bound to the value |
| JavaLang.Properties.Clone | src/main/java/de/icongmbh/oss/maven/plugin/javassist/example/transformer/MethodCallClassTransformer.java:116 | a fresh object with the same entries |
| Javassist.CtClass.constructor | src/main/java/de/icongmbh/oss/maven/plugin/javassist/JavassistTransformerExecutor.java:257 | the loaded class has the requested name and the class file found |
| Javassist.CtClass.GetDeclaredField | src/main/java/de/icongmbh/oss/maven/plugin/javassist/JavassistTransformerExecutor.java:428-434 | getDeclaredField: the field exactly when the class declares it, otherwise NotFoundException |
| Javassist.CtClass.GetField | src/main/java/de/icongmbh/oss/maven/plugin/javassist/example/transformer/MethodCallClassTransformer.java:156-163 | getField: found exactly when declared or inherited, otherwise NotFoundException |
| Javassist.CtClass.AddField | src/main/java/de/icongmbh/oss/maven/plugin/javassist/JavassistTransformerExecutor.java:386-388 | addField: a duplicate name throws CannotCompileException and changes nothing; otherwise exactly that field is added |
| Javassist.CtClass.RemoveField | src/main/java/de/icongmbh/oss/maven/plugin/javassist/JavassistTransformerExecutor.java:405-411 | removeField: a missing field throws NotFoundException and changes nothing; otherwise exactly that field is removed |
| Javassist.CtClass.WriteFile | src/main/java/de/icongmbh/oss/maven/plugin/javassist/JavassistTransformerExecutor.java:262 | writeFile either throws the environment's exception or stores the class, as it is, under (directory, name) |
| Javassist.FindInIsFirstMatch | src/main/java/de/icongmbh/oss/maven/plugin/javassist/JavassistTransformerExecutor.java:336-344 | the pool finds a class exactly when some source has it, and returns the first source's copy |
| Javassist.FindAfterWriteOther | src/main/java/de/icongmbh/oss/maven/plugin/javassist/JavassistTransformerExecutor.java:246-262 | writing one class leaves what a pool finds for every other name unchanged |
| Javassist.FindInAfterWriteOther | src/main/java/de/icongmbh/oss/maven/plugin/javassist/JavassistTransformerExecutor.java:246-262 | the same, for an ordered list of sources |
| Javassist.FindStaysFound | src/main/java/de/icongmbh/oss/maven/plugin/javassist/JavassistTransformerExecutor.java:246-262 | a class a pool can find stays findable after any write |
| Javassist.FindInStaysFound | src/main/java/de/icongmbh/oss/maven/plugin/javassist/JavassistTransformerExecutor.java:246-262 | the same, for an ordered list of sources |
| ClassnameExtractor.ToPath | src/main/java/de/icongmbh/oss/maven/plugin/javassist/ClassnameExtractor.java:63 | the inverse direction of the separator rewrite: each `.` becomes the separator, nothing else changes |
| ClassnameExtractor.ReplaceSeparatorsPointwise | src/main/java/de/icongmbh/oss/maven/plugin/javassist/ClassnameExtractor.java:63 | replace(File.separator, "."): same length, each separator becomes `.`, nothing else changes |
| ClassnameExtractor.LastIndexOf | src/main/java/de/icongmbh/oss/maven/plugin/javassist/ClassnameExtractor.java:63 | lastIndexOf returns -1 or an index inside the string |
| ClassnameExtractor.LastIndexOfIsLast | src/main/java/de/icongmbh/oss/maven/plugin/javassist/ClassnameExtractor.java:63 | a non-negative result holds the character, and no later position does |
| ClassnameExtractor.ExtractClassNameFromFile | src/main/java/de/icongmbh/oss/maven/plugin/javassist/ClassnameExtractor.java:54-64 | null for a null file; throws (out-of-range substring) exactly when the file path is shorter than the parent path plus one separator; otherwise a name |
| ClassnameExtractor.ClassFilePathRoundTrip | src/main/java/de/icongmbh/oss/maven/plugin/javassist/ClassnameExtractor.java:59-63 | extracting from the class-file path of a qualified name under a directory gives back that name |
| ClassnameExtractor.CutAtLastDot | src/main/java/de/icongmbh/oss/maven/plugin/javassist/ClassnameExtractor.java:63 | removeExtension cuts at the last `.` |
| ClassnameExtractor.RemoveClassExtension | src/main/java/de/icongmbh/oss/maven/plugin/javassist/ClassnameExtractor.java:63 | removeExtension undoes appending ".class" |
| ClassnameExtractor.ReplaceSeparatorsOfPath | src/main/java/de/icongmbh/oss/maven/plugin/javassist/ClassnameExtractor.java:63 | the separator rewrite undoes ToPath on a class-file name |
| ClassnameExtractor.ExtractPackagedClassFile | src/main/java/de/icongmbh/oss/maven/plugin/javassist/ClassnameExtractor.java:59-63 | `dir/pkg/Name.class` under `dir` gives `pkg.Name` |
| ClassnameExtractor.ExtractNestedClassFile | src/main/java/de/icongmbh/oss/maven/plugin/javassist/ClassnameExtractor.java:59-63 | `/foo/bar/MyClass.class` under `/foo` gives `bar.MyClass` |
| ClassnameExtractor.ExtractExtensionlessFile | src/main/java/de/icongmbh/oss/maven/plugin/javassist/ClassnameExtractor.java:63 | a file without an extension loses its last segment: `dir/pkg/Name` gives `pkg` |
| ClassnameExtractor.ExtractExtensionlessExample | src/main/java/de/icongmbh/oss/maven/plugin/javassist/ClassnameExtractor.java:63 | `/foo/bar/MyClass` under `/foo` gives `bar` |
| ClassnameExtractor.ExtractOutsideParentThrows | src/main/java/de/icongmbh/oss/maven/plugin/javassist/ClassnameExtractor.java:59-62 | a file path no longer than the parent path throws |
| ClassnameExtractor.ResolvedChildExtractsRelativeName | src/main/java/de/icongmbh/oss/maven/plugin/javassist/ClassnameExtractor.java:163-173 | a relative name resolved against a parent (other than the root) extracts as the relative name alone would |
| ClassnameExtractor.RootParentDropsFirstCharacter | src/main/java/de/icongmbh/oss/maven/plugin/javassist/ClassnameExtractor.java:59-62 | with the root as parent, the one-separator cut eats the first character of the relative name |
| ClassnameExtractor.DrainClassnamesOf | src/main/java/de/icongmbh/oss/maven/plugin/javassist/ClassnameExtractor.java:75-113 | draining the iterator over a list of files with hasNext and next hands out exactly the extraction of each file, one per file, in order |
| ClassnameExtractor.ListClassnames | src/main/java/de/icongmbh/oss/maven/plugin/javassist/ClassnameExtractor.java:137-147 | empty for null; otherwise it succeeds exactly when every extraction does, with the same length and element i the extraction of file i; a failure is the unchecked exception |
| ClassnameExtractor.ListClassnamesOf | src/main/java/de/icongmbh/oss/maven/plugin/javassist/ClassnameExtractor.java:163-173 | the same, for names first resolved against the parent directory |
| ClassnameExtractor.FileIterator.constructor | src/main/java/de/icongmbh/oss/maven/plugin/javassist/ClassnameExtractor.java:75-78 | the iterator over the given files starts at the first |
| ClassnameExtractor.FileIterator.Next | src/main/java/de/icongmbh/oss/maven/plugin/javassist/ClassnameExtractor.java:106 | the next file, advancing by one; past the end NoSuchElementException and no change |
| ClassnameExtractor.FileIterator.Remove | src/main/java/de/icongmbh/oss/maven/plugin/javassist/ClassnameExtractor.java:115-118 | removes the last returned file when removal is supported and one was returned; otherwise throws and changes nothing |
| ClassnameExtractor.ClassnameIterator.constructor | src/main/java/de/icongmbh/oss/maven/plugin/javassist/ClassnameExtractor.java:95-98 | the wrapper keeps the parent directory and the wrapped iterator |
| ClassnameExtractor.ClassnameIterator.HasNext | src/main/java/de/icongmbh/oss/maven/plugin/javassist/ClassnameExtractor.java:100-102 | false for a null wrapped iterator, otherwise exactly when files remain |
| ClassnameExtractor.ClassnameIterator.Next | src/main/java/de/icongmbh/oss/maven/plugin/javassist/ClassnameExtractor.java:104-113 | consumes exactly one file and returns its extraction (null, a name, or the unchecked exception) |
| ClassnameExtractor.ClassnameIterator.Remove | src/main/java/de/icongmbh/oss/maven/plugin/javassist/ClassnameExtractor.java:115-118 | delegates to the wrapped iterator's remove, with its outcome |
| ClassnameExtractor.IterateClassnamesOf | src/main/java/de/icongmbh/oss/maven/plugin/javassist/ClassnameExtractor.java:75-78 | a fresh wrapper over a fresh, unmodifiable iterator of exactly the given files, at the start |
| ClassnameExtractor.IterateClassnames | src/main/java/de/icongmbh/oss/maven/plugin/javassist/ClassnameExtractor.java:95-98 | a fresh wrapper over the very iterator passed in |
| TransformRun.ToLower | src/main/java/de/icongmbh/oss/maven/plugin/javassist/JavassistTransformerExecutor.java:339 | toLowerCase maps the ASCII capitals to small letters and keeps every other character |
| TransformRun.MakePathObject | src/main/java/de/icongmbh/oss/maven/plugin/javassist/JavassistTransformerExecutor.java:339 | appendClassPath: NotFoundException exactly for a `.jar`/`.zip` path that cannot be opened; any other path is a directory source |
| TransformRun.ConfigureClassPool | src/main/java/de/icongmbh/oss/maven/plugin/javassist/JavassistTransformerExecutor.java:317-344 | child-first, the default pool as parent, and the sources in the order input directory, context loader, system path; fails exactly when the input path does |
| TransformRun.IterateClassnames | src/main/java/de/icongmbh/oss/maven/plugin/javassist/JavassistTransformerExecutor.java:362-369 | a null or unlistable directory throws; otherwise one item per listed file, in order, each its extraction |
| TransformRun.CountWritten | src/main/java/de/icongmbh/oss/maven/plugin/javassist/JavassistTransformerExecutor.java:264 | the counter never exceeds the number of visits |
| TransformRun.WrittenNames | src/main/java/de/icongmbh/oss/maven/plugin/javassist/JavassistTransformerExecutor.java:262 | a name is in the set exactly when some visit wrote it |
| TransformRun.Visited | src/main/java/de/icongmbh/oss/maven/plugin/javassist/JavassistTransformerExecutor.java:249-257 | the names visited, one per visit, in order |
| TransformerExecutor.StampFieldNameShape | src/main/java/de/icongmbh/oss/maven/plugin/javassist/JavassistTransformerExecutor.java:453-455 | the stamp name is the prefix followed by the class name with every non-word character turned into `_`: same length as the two together, and only word characters |
| TransformerExecutor.StampModifiers | src/main/java/de/icongmbh/oss/maven/plugin/javassist/JavassistTransformerExecutor.java:469-475 | static final, plus public for an interface and private for a class, and no other flag |
| TransformerExecutor.Stamped | src/main/java/de/icongmbh/oss/maven/plugin/javassist/JavassistTransformerExecutor.java:469-481 | applyStamp's effect: the stamp field (boolean, initial value true) is added, and nothing else about the class changes |
| TransformerExecutor.EvaluateOutputDirectory | src/main/java/de/icongmbh/oss/maven/plugin/javassist/JavassistTransformerExecutor.java:306-308 | a non-blank output directory untrimmed; otherwise the trimmed input directory; NullPointerException when that is null too |
| TransformerExecutor.ProcessClassWrites | src/main/java/de/icongmbh/oss/maven/plugin/javassist/JavassistTransformerExecutor.java:257-264 | a class that is not written leaves the disk unchanged; a written one changes only its own entry in the output directory, carries the stamp, and is what the pool keeps |
| TransformerExecutor.ProcessClassCaches | src/main/java/de/icongmbh/oss/maven/plugin/javassist/JavassistTransformerExecutor.java:257 | handling a class changes the pool's cache only for that class, and only with a class the pool could find |
| TransformerExecutor.ProcessClassSkipsStamped | src/main/java/de/icongmbh/oss/maven/plugin/javassist/JavassistTransformerExecutor.java:259 | a class that loads with the stamp is never offered to the transformer and nothing is written |
| TransformerExecutor.ProcessClassTransforms | src/main/java/de/icongmbh/oss/maven/plugin/javassist/JavassistTransformerExecutor.java:259-262 | only an unstamped class that shouldTransform accepts reaches applyTransformations; what is written is the transformed class plus the stamp |
| TransformerExecutor.EscapedRunIsFinal | src/main/java/de/icongmbh/oss/maven/plugin/javassist/JavassistTransformerExecutor.java:249-287 | once an exception has left the loop, later names change nothing |
| TransformerExecutor.ExecuteStopsAtEscape | src/main/java/de/icongmbh/oss/maven/plugin/javassist/JavassistTransformerExecutor.java:129-133 | an exception from one transformer stops execute(): the later transformers do nothing |
| TransformerExecutor.JavassistTransformerExecutor.constructor | src/main/java/de/icongmbh/oss/maven/plugin/javassist/JavassistTransformerExecutor.java:56-66 | no transformers, no directories |
| TransformerExecutor.JavassistTransformerExecutor.SetTransformerClasses | src/main/java/de/icongmbh/oss/maven/plugin/javassist/JavassistTransformerExecutor.java:75-77 | a null array throws and changes nothing; otherwise the field holds a copy of the array's contents; the directories are untouched |
| TransformerExecutor.JavassistTransformerExecutor.SetInputDirectory | src/main/java/de/icongmbh/oss/maven/plugin/javassist/JavassistTransformerExecutor.java:110-112 | sets the input directory and nothing else |
| TransformerExecutor.JavassistTransformerExecutor.SetOutputDirectory | src/main/java/de/icongmbh/oss/maven/plugin/javassist/JavassistTransformerExecutor.java:89-91 | sets the output directory and nothing else |
| TransformerExecutor.JavassistTransformerExecutor.HasStamp | src/main/java/de/icongmbh/oss/maven/plugin/javassist/JavassistTransformerExecutor.java:428-442 | true exactly when the class declares the stamp field; NotFound means false |
| TransformerExecutor.JavassistTransformerExecutor.ApplyStamp | src/main/java/de/icongmbh/oss/maven/plugin/javassist/JavassistTransformerExecutor.java:386-388 | an unstamped class gets exactly the stamp field; a stamped one throws CannotCompileException unchanged; the class is stamped afterwards either way |
| TransformerExecutor.JavassistTransformerExecutor.RemoveStamp | src/main/java/de/icongmbh/oss/maven/plugin/javassist/JavassistTransformerExecutor.java:405-411 | removes the stamp field if present, a no-op otherwise, no other field changes, and the class is unstamped afterwards |
| TransformerExecutor.JavassistTransformerExecutor.TransformClass | src/main/java/de/icongmbh/oss/maven/plugin/javassist/JavassistTransformerExecutor.java:254-282 | the try block on one class, in place on a CtClass, ends as ProcessClass says |
| TransformerExecutor.JavassistTransformerExecutor.TransformItem | src/main/java/de/icongmbh/oss/maven/plugin/javassist/JavassistTransformerExecutor.java:250-282 | one turn of the loop; the counter goes up exactly when the class is written |
| TransformerExecutor.JavassistTransformerExecutor.TransformClasses | src/main/java/de/icongmbh/oss/maven/plugin/javassist/JavassistTransformerExecutor.java:248-284 | the while loop ends in the state of the loop specification, with the counter equal to the number of written classes |
| TransformerExecutor.JavassistTransformerExecutor.Transform | src/main/java/de/icongmbh/oss/maven/plugin/javassist/JavassistTransformerExecutor.java:231-288 | the four-argument transform: guards, pool, output directory, then the loop; counter, disk and escaping exception as specified |
| TransformerExecutor.JavassistTransformerExecutor.TransformDirectories | src/main/java/de/icongmbh/oss/maven/plugin/javassist/JavassistTransformerExecutor.java:198-202 | lists the input directory, then transforms |
| TransformerExecutor.JavassistTransformerExecutor.TransformDirectory | src/main/java/de/icongmbh/oss/maven/plugin/javassist/JavassistTransformerExecutor.java:176-178 | one directory as both input and output |
| TransformerExecutor.JavassistTransformerExecutor.ExecuteTransformer | src/main/java/de/icongmbh/oss/maven/plugin/javassist/JavassistTransformerExecutor.java:152-154 | one transformer against the configured directories |
| TransformerExecutor.JavassistTransformerExecutor.Execute | src/main/java/de/icongmbh/oss/maven/plugin/javassist/JavassistTransformerExecutor.java:129-133 | the transformers in array order, each on the disk the previous left, all against the same directories |
| ExecutorProperties.StampModifiersAreLegal | src/main/java/de/icongmbh/oss/maven/plugin/javassist/JavassistTransformerExecutor.java:469-475 | the stamp's flags are legal field flags (section 4.5 of the Java Virtual Machine Specification), for an interface too |
| ExecutorProperties.EffectiveOutputDirectory | src/main/java/de/icongmbh/oss/maven/plugin/javassist/JavassistTransformerExecutor.java:306-308 | with a non-blank input directory the output directory is non-blank, and evaluating it again keeps it |
| ExecutorProperties.InputCopyWins | src/main/java/de/icongmbh/oss/maven/plugin/javassist/JavassistTransformerExecutor.java:338-339 | in a child-first pool led by the input directory, the input directory's copy of a class is the one loaded |
| ExecutorProperties.ClassPoolSearchOrder | src/main/java/de/icongmbh/oss/maven/plugin/javassist/JavassistTransformerExecutor.java:336-344 | a class is looked up in the input directory, then the context loader, then the system path |
| ExecutorProperties.WrittenClassesAreStamped | src/main/java/de/icongmbh/oss/maven/plugin/javassist/JavassistTransformerExecutor.java:260-262 | after a run, every written class sits in the output directory with the stamp, and every other file is as before |
| ExecutorProperties.StampedClassIsNeverOffered | src/main/java/de/icongmbh/oss/maven/plugin/javassist/JavassistTransformerExecutor.java:259 | a class the pool finds stamped is never offered to the transformer and never written, however often it is named |
| ExecutorProperties.StampedClassStaysSkipped | src/main/java/de/icongmbh/oss/maven/plugin/javassist/JavassistTransformerExecutor.java:257-262 | the same, with the disk seen by the pool and the cached copy still stamped after the run |
| ExecutorProperties.FailuresDoNotStopTheBatch | src/main/java/de/icongmbh/oss/maven/plugin/javassist/JavassistTransformerExecutor.java:249-282 | a run no exception leaves visits every non-null name, in order, whatever happened to the classes before |
| ExecutorProperties.RecordedFailuresAreContained | src/main/java/de/icongmbh/oss/maven/plugin/javassist/JavassistTransformerExecutor.java:266-282 | in a run no exception leaves, every recorded failure is one of the caught kinds |
| ExecutorProperties.EscapesAreIteratorOrUnchecked | src/main/java/de/icongmbh/oss/maven/plugin/javassist/JavassistTransformerExecutor.java:249-287 | an exception leaving the loop is an unchecked one or one thrown by the name iterator |
| ExecutorProperties.NoUncheckedNoEscape | src/main/java/de/icongmbh/oss/maven/plugin/javassist/JavassistTransformerExecutor.java:266-282 | a transformer and writes that throw only checked exceptions, with an iterator that does not throw, never end the run early |
| ExecutorRuns.GuardsDoNothing | src/main/java/de/icongmbh/oss/maven/plugin/javassist/JavassistTransformerExecutor.java:235-243 | no transformer, a null or blank input directory, or no names: nothing is written, nothing visited, nothing thrown |
| ExecutorRuns.ListingPrecedesGuards | src/main/java/de/icongmbh/oss/maven/plugin/javassist/JavassistTransformerExecutor.java:198-202 | the directory overloads list before the guards, so a null input directory throws even without a transformer |
| ExecutorRuns.RunContext | src/main/java/de/icongmbh/oss/maven/plugin/javassist/JavassistTransformerExecutor.java:246-247 | the pool of a run is child-first and led by the input directory; the stamp name is the executor's |
| ExecutorRuns.TransformIsRunLoop | src/main/java/de/icongmbh/oss/maven/plugin/javassist/JavassistTransformerExecutor.java:244-283 | past the guards, over a directory, transform is the loop in that context |
| ExecutorRuns.LaterRunSkipsWrittenClasses | src/main/java/de/icongmbh/oss/maven/plugin/javassist/JavassistTransformerExecutor.java:246-262 | when a run writes into its input directory, a later run, with any transformer, never offers a class the first run wrote and never writes it again |
| ExecutorRuns.WrittenExampleClassIsMarkedTwice | src/main/java/de/icongmbh/oss/maven/plugin/javassist/JavassistTransformerExecutor.java:259-262 | under the executor, a class the example transformer writes carries the stamp and the marker and has its calls instrumented |
| LegacyClassTransformer.LegacyPool | src/main/java/com/github/drochetti/javassist/maven/ClassTransformer.java:144-180 | the same pool as the executor's over the untrimmed input directory; any failure, a null directory included, leaves as RuntimeException |
| LegacyClassTransformer.LegacyProcessClassContract | src/main/java/com/github/drochetti/javassist/maven/ClassTransformer.java:159-166 | no stamp is checked or added; a class that is not written leaves the disk unchanged; a written one is exactly the transformed class, accepted by filter; a resolution failure is NotFound |
| LegacyClassTransformer.LegacyProcessClassCaches | src/main/java/com/github/drochetti/javassist/maven/ClassTransformer.java:159 | the pool's cache changes only for the class handled |
| LegacyClassTransformer.LegacyEscapedRunIsFinal | src/main/java/com/github/drochetti/javassist/maven/ClassTransformer.java:151-180 | once the iterator's exception has left the loop, later names change nothing |
| LegacyClassTransformer.ClassTransformer.constructor | src/main/java/com/github/drochetti/javassist/maven/ClassTransformer.java:40-53 | a transformer is its filter and applyTransformations |
| LegacyClassTransformer.ClassTransformer.Configure | src/main/java/com/github/drochetti/javassist/maven/ClassTransformer.java:76-78 | the default configure does nothing and does not throw |
| LegacyClassTransformer.ClassTransformer.TransformClass | src/main/java/com/github/drochetti/javassist/maven/ClassTransformer.java:158-175 | the try block on one class, in place on a CtClass, ends as LegacyProcessClass says |
| LegacyClassTransformer.ClassTransformer.TransformItem | src/main/java/com/github/drochetti/javassist/maven/ClassTransformer.java:152-175 | one turn of the loop; the counter goes up exactly when the class is written |
| LegacyClassTransformer.ClassTransformer.TransformClasses | src/main/java/com/github/drochetti/javassist/maven/ClassTransformer.java:150-176 | the while loop ends in the state of the loop specification, with the counter equal to the number of written classes |
| LegacyClassTransformer.ClassTransformer.Transform | src/main/java/com/github/drochetti/javassist/maven/ClassTransformer.java:138-181 | only the iterator is guarded; then the pool and the loop; counter, disk and escaping exception as specified |
| LegacyClassTransformer.ClassTransformer.TransformDirectories | src/main/java/com/github/drochetti/javassist/maven/ClassTransformer.java:117-123 | nothing for a blank input directory; the output defaults to the untrimmed input directory |
| LegacyClassTransformer.ClassTransformer.TransformDirectory | src/main/java/com/github/drochetti/javassist/maven/ClassTransformer.java:95-100 | nothing for a blank directory; otherwise it is both input and output |
| LegacyProperties.LegacyOnlyTheIteratorEscapes | src/main/java/com/github/drochetti/javassist/maven/ClassTransformer.java:151-180 | only the iterator ends the legacy run, as RuntimeException; a run it does not end visits every non-null name in order |
| LegacyProperties.AcceptAllWritesEveryResolvedClass | src/main/java/com/github/drochetti/javassist/maven/ClassTransformer.java:159-171 | with the default filter and a transformer and writes that never fail, every visited class is written or could not be resolved |
| LegacyProperties.LegacyIgnoresTheStamp | src/main/java/com/github/drochetti/javassist/maven/ClassTransformer.java:159-166 | a class carrying the executor's stamp is written again by the legacy loop, where the executor skips it |
| MethodCallTransformer.StatementFor | src/main/java/de/icongmbh/oss/maven/plugin/javassist/example/transformer/MethodCallClassTransformer.java:165-175 | null without properties or without both names; otherwise `Class#method`, then `Class#`, then `#method`, the first present wins; any result is a configured statement |
| MethodCallTransformer.NullClassNameIsLookedUpAsText | src/main/java/de/icongmbh/oss/maven/plugin/javassist/example/transformer/MethodCallClassTransformer.java:170 | a null class name is looked up as the text "null" |
| MethodCallTransformer.Instrument | src/main/java/de/icongmbh/oss/maven/plugin/javassist/example/transformer/MethodCallClassTransformer.java:130-144 | instrumenting keeps one site per call site |
| MethodCallTransformer.InstrumentPointwise | src/main/java/de/icongmbh/oss/maven/plugin/javassist/example/transformer/MethodCallClassTransformer.java:130-144 | each call with a statement is replaced by it; every other site is kept |
| MethodCallTransformer.NoPropertiesNoReplacement | src/main/java/de/icongmbh/oss/maven/plugin/javassist/example/transformer/MethodCallClassTransformer.java:167-169 | without properties, or with none, the code is unchanged |
| MethodCallTransformer.TransformedFile | src/main/java/de/icongmbh/oss/maven/plugin/javassist/example/transformer/MethodCallClassTransformer.java:124-154 | fails with JavassistBuildException exactly when the marker is already declared; otherwise the calls are instrumented, the marker is added, and nothing else changes |
| MethodCallTransformer.MarkerFieldIsLegal | src/main/java/de/icongmbh/oss/maven/plugin/javassist/example/transformer/MethodCallClassTransformer.java:146-149 | public static final is legal for a class and an interface |
| MethodCallTransformer.TransformedIsDeclinedAfterwards | src/main/java/de/icongmbh/oss/maven/plugin/javassist/example/transformer/MethodCallClassTransformer.java:119-150 | a class the transformer transformed is declined by shouldTransform afterwards |
| MethodCallTransformer.MethodCallClassTransformer.constructor | src/main/java/de/icongmbh/oss/maven/plugin/javassist/example/transformer/MethodCallClassTransformer.java:90 | no properties before configure |
| MethodCallTransformer.MethodCallClassTransformer.Configure | src/main/java/de/icongmbh/oss/maven/plugin/javassist/example/transformer/MethodCallClassTransformer.java:114-117 | empty properties for null, otherwise a fresh copy with the same entries |
| MethodCallTransformer.MethodCallClassTransformer.GetStatement | src/main/java/de/icongmbh/oss/maven/plugin/javassist/example/transformer/MethodCallClassTransformer.java:165-175 | null without properties; any statement comes from the properties |
| MethodCallTransformer.MethodCallClassTransformer.IsIntrospected | src/main/java/de/icongmbh/oss/maven/plugin/javassist/example/transformer/MethodCallClassTransformer.java:156-163 | true exactly when getField finds the marker, inherited included |
| MethodCallTransformer.MethodCallClassTransformer.ShouldTransform | src/main/java/de/icongmbh/oss/maven/plugin/javassist/example/transformer/MethodCallClassTransformer.java:119-122 | true exactly for a non-null class whose field lookup for the marker throws NotFound |
| MethodCallTransformer.MethodCallClassTransformer.ApplyTransformations | src/main/java/de/icongmbh/oss/maven/plugin/javassist/example/transformer/MethodCallClassTransformer.java:124-154 | nothing for null; otherwise the class ends as TransformedFile says, or instrumented and JavassistBuildException when the marker is already declared; shouldTransform is false afterwards |
| MethodCallTransformer.ConfigureThenChange | src/main/java/de/icongmbh/oss/maven/plugin/javassist/example/transformer/MethodCallClassTransformer.java:114-117 | a change to the caller's properties after configure is not seen by the transformer |
| LegacyMethodCallTransformer.MethodCallClassTransformer.constructor | src/main/java/com/github/drochetti/javassist/maven/example/transformer/MethodCallClassTransformer.java:36 | no properties before configure |
| LegacyMethodCallTransformer.MethodCallClassTransformer.Configure | src/main/java/com/github/drochetti/javassist/maven/example/transformer/MethodCallClassTransformer.java:58-63 | empty properties for null, otherwise the caller's very object |
| LegacyMethodCallTransformer.MethodCallClassTransformer.Filter | src/main/java/com/github/drochetti/javassist/maven/example/transformer/MethodCallClassTransformer.java:65-68 | false for null, otherwise true |
| LegacyMethodCallTransformer.MethodCallClassTransformer.GetStatement | src/main/java/com/github/drochetti/javassist/maven/example/transformer/MethodCallClassTransformer.java:94-106 | the same three-step lookup as the current transformer's, null without properties |
| LegacyMethodCallTransformer.MethodCallClassTransformer.ApplyTransformations | src/main/java/com/github/drochetti/javassist/maven/example/transformer/MethodCallClassTransformer.java:70-92 | nothing for null; otherwise only the calls are instrumented, no field is added, and it does not throw |
| LegacyMethodCallTransformer.LegacyAcceptsItsOwnOutput | src/main/java/com/github/drochetti/javassist/maven/example/transformer/MethodCallClassTransformer.java:65-92 | the legacy transformer leaves no marker, so it accepts its own output again |
| LegacyMethodCallTransformer.ConfigureThenChange | src/main/java/com/github/drochetti/javassist/maven/example/transformer/MethodCallClassTransformer.java:58-63 | a key added to the caller's properties after configure is seen by the legacy transformer and not by the current one |

## Left out

- Javassist internals are not modelled: bytecode parsing, serialisation in `writeFile`, `ExprEditor` rewriting and the compilation of replacement statements. A method-call site is a value, and a replacement is the statement text.
- Calls inside a replacement statement are not modelled. A replacement such as `{ $_ = $proceed($$); }` compiles into a new call of the original method, which a second `instrument` would edit again; in the model a replaced site is final. Only the introspection marker keeps the example transformer from instrumenting a class twice, and that is what the model proves (TransformedIsDeclinedAfterwards).
- The legacy `ClassTransformer` calls `ClassnameExtractor.iterateClassnames` from its own package, `com.github.drochetti.javassist.maven`; that class is not part of this model. Its listing is assumed to behave like the `de.icongmbh` `ClassnameExtractor` modelled here.
- CtClass.RemoveField removes a field by name. Javassist's `removeField` is handed the freshly built stamp `CtField` (JavassistTransformerExecutor.java:407) and may match fields by identity rather than by name; Javassist is not part of this model, so RemoveStamp states the name-based removal the executor documents.
- Compile errors of the configured statements, and the CannotCompileException that the example transformers wrap around them, are not modelled. Only the marker's duplicate-field error is.
- `importPackage` is left out. It only affects how Javassist resolves source-level names in statements.
- Frozen classes, class renaming, and the partial mutation a class keeps when `applyTransformations` throws midway are not modelled. A failing transformer leaves the class as loaded.
- The `initializeClass` warm-up is modelled as resolution that may fail with NotFound. The supertypes and `java.lang.Object` it loads are not added to the pool's cache.
- The `supers` of a class file stand in for the superclass walk of `subtypeOf`: a fixed set of names per class that must all resolve. In Javassist, which ancestors the walk loads depends on what the pool finds along the way.
- File-system traversal is not modelled. `FileUtils.iterateFiles` and the `.class` filter are a listing function of the environment, paths are taken as already canonical, and the separator is `/`.
- `toLowerCase` covers ASCII letters only.
- Javassist's `/*` wildcard class path is not modelled. A non-archive path is always a directory source.
- Nested-class recursion and per-transformer stamp names are not modelled. The executor as written does neither: its stamp name comes from its own class name.
- The class pool's cache is a map value threaded through a run, not a shared object.
- The disk, the class loaders, the directory listing and write failures are parameters. The name iterator is a sequence of outcomes.
- Errors (`java.lang.Error`) and interruption are not modelled.
- The defaults table of `java.util.Properties` is not modelled.
- Logging (`debugClassFile`, `debugClassLoader`, all log statements) is left out.
- Both Mojos, `ClassTransformerConfiguration`, the `de.icongmbh` `ClassTransformer` base class, and the legacy `JavassistTransformerExecutor`'s changes to the default pool and the context class loader are left out.
- JavassistTransformerExecutor.GetInputDirectory and JavassistTransformerExecutor.GetOutputDirectory return the fields and have no contract.
- MethodCallTransformer.MethodCallClassTransformer.GetStatement: its own contract gives only the null case and the provenance of the result. The lookup order is stated on StatementFor, which it returns.
