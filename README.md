# WSDL tasks plugin for Gradle: a verified model of its core

The plugin adds a `wsdlToJava` task to a Gradle build. That task turns WSDL
service descriptions into Java sources. A task holds a container of `Wsdl`
entries, and each entry has a name, a WSDL file and an optional target
package. When the task runs, it builds one `wsimport` command line per entry
and submits it as a work item. The plugin gives every such task a default
output directory, `<buildDir>/generated-sources/<task name>/java`, which a
directory set on the task overrides.

The model has five modules:

- `Wrappers` holds `Option`, which stands for Java's nullable references.
- `Files` models the part of `java.io.File` (Unix) that the core uses: the path, `getName()`, `getAbsolutePath()` of a resolved file, and `new File(parent, child)`.
- `WsdlDescriptor` is the mutable `Wsdl` entry, written as a class with its constructors, getters, setters and `toString()`.
- `WsdlToJava` is the task, in two layers:
  - what to compute: the command line as a function, `CommandLine` on strings and `Arguments` on files;
  - how it is computed: the token-by-token builder method, and the loops over the entries, each proved against those functions.
- `WsdlTasksPlugin` holds the conventional output directory and the convention fallback.

Things the model takes as parameters rather than computing:

- Resolving an entry's configured, non-null file through the project (`Project.file`) is the function parameter `resolve`. Its results are required to be absolute, as the project's are.
- The logger's debug state is the boolean `debug`.
- The task's output directory is passed in already resolved, and is required to be absolute.

Facts about the command line that the code fixes:

- An argument list has 8 tokens without a package override and 10 with one.
- Only a null package name leaves out `-p`. An empty package name still gives `-p ""` (see `WsdlToJava.EmptyPackageStillPassed`).
- An entry without a WSDL file makes the project's file resolution throw. The task then fails, and the entries after it are not submitted.
- The list always holds exactly one verbosity flag slot, next to last. Exactly one of `-Xdebug`/`-quiet` occurs in the list only if no user-supplied token is spelled like a flag. `WsdlToJava.VerbosityFlagUnique` proves the claim under that proviso, and `WsdlToJava.VerbosityFlagSpelledByPackage` shows a list where both occur.

## Model

| member | source | states |
|---|---|---|
| Files.Name | src/main/java/org/codeartisans/gradle/wsdl/WsdlToJava.java:68 | `getName()` of the resolved file: the result holds no separator, ends the path, and is either the whole path or comes right after a separator |
| Files.NameUnique | src/main/java/org/codeartisans/gradle/wsdl/WsdlToJava.java:68 | those three facts determine the name: any string that satisfies them is `getName()` of the path |
| Files.Child | src/main/java/org/codeartisans/gradle/wsdl/WsdlTasksPlugin.java:38-39 | `new File(parent, child)` for a relative, non-empty child: the parent path, a separator, then the child; under a root parent ("" or "/"), a separator then the child |
| WsdlDescriptor.JavaString | src/main/java/org/codeartisans/gradle/wsdl/Wsdl.java:46 | string concatenation shows a non-null string as itself and null as "null" |
| WsdlDescriptor.Wsdl.constructor | src/main/java/org/codeartisans/gradle/wsdl/Wsdl.java:13 | a new entry has all three fields null |
| WsdlDescriptor.Wsdl.Named | src/main/java/org/codeartisans/gradle/wsdl/Wsdl.java:15-17 | the named constructor sets the name and leaves the file and package null |
| WsdlDescriptor.Wsdl.GetName | src/main/java/org/codeartisans/gradle/wsdl/Wsdl.java:19-22 | returns the current name |
| WsdlDescriptor.Wsdl.SetName | src/main/java/org/codeartisans/gradle/wsdl/Wsdl.java:24-26 | the name becomes the argument; the file and package are unchanged |
| WsdlDescriptor.Wsdl.GetWsdl | src/main/java/org/codeartisans/gradle/wsdl/Wsdl.java:28-30 | returns the current WSDL file |
| WsdlDescriptor.Wsdl.SetWsdl | src/main/java/org/codeartisans/gradle/wsdl/Wsdl.java:32-34 | the file becomes the argument; the name and package are unchanged |
| WsdlDescriptor.Wsdl.GetPackageName | src/main/java/org/codeartisans/gradle/wsdl/Wsdl.java:36-38 | returns the current package name |
| WsdlDescriptor.Wsdl.SetPackageName | src/main/java/org/codeartisans/gradle/wsdl/Wsdl.java:40-42 | the package becomes the argument; the name and file are unchanged |
| WsdlDescriptor.Wsdl.ToString | src/main/java/org/codeartisans/gradle/wsdl/Wsdl.java:44-47 | the text is the shown name, then " WSDL to ", then the shown package, with each part at its own position; the file plays no part |
| WsdlDescriptor.SettersRoundTrip | src/main/java/org/codeartisans/gradle/wsdl/Wsdl.java:24-42 | setting each field and reading it back gives the value set, and no setter disturbs another field |
| WsdlDescriptor.ToStringNullAmbiguous | src/main/java/org/codeartisans/gradle/wsdl/Wsdl.java:46 | a null package and the package "null" print the same |
| WsdlDescriptor.ToStringDeterminesPackage | src/main/java/org/codeartisans/gradle/wsdl/Wsdl.java:46 | for entries whose names print alike, the texts are equal exactly when the packages print alike |
| WsdlToJava.CommandLine | src/main/java/org/codeartisans/gradle/wsdl/WsdlToJava.java:62-79 | the list has 10 tokens with a non-null package and 8 without; it starts with "-p" exactly when the package is non-null, then the package; counted from the end come "-wsdllocation" and the location, "-s" and the output path, "-extension", "-Xnocompile", the verbosity flag for the debug state, and the WSDL path last |
| WsdlToJava.Arguments | src/main/java/org/codeartisans/gradle/wsdl/WsdlToJava.java:59-80 | on a resolved file: the location hint is the file's name and holds no separator, the output token is the output directory's absolute path, the last token is the file's absolute path, and the location hint ends that last token |
| WsdlToJava.WsImportArgumentsFor | src/main/java/org/codeartisans/gradle/wsdl/WsdlToJava.java:59-80 | reads the entry's file and package; fails (no list) exactly when the file is null, as `Project.file(null)` throws; otherwise resolves the file through the project and returns exactly `Arguments` of those values, whose output and WSDL paths are absolute |
| WsdlToJava.AddArguments | src/main/java/org/codeartisans/gradle/wsdl/WsdlToJava.java:62-79 | the successive adds, including both branches, build exactly `CommandLine` |
| WsdlToJava.ProcessWsdls | src/main/java/org/codeartisans/gradle/wsdl/WsdlToJava.java:51-57 | the submitted lists are, in order, the `Arguments` of the leading entries that have a file; the run fails exactly when some entry has no file, and then stops at the first such entry; otherwise every entry is submitted |
| WsdlToJava.GetWsdlFiles | src/main/java/org/codeartisans/gradle/wsdl/WsdlToJava.java:39-46 | one file per entry, in order, each the entry's configured file; every entry's file is among them |
| WsdlToJava.ArgumentsInjective | src/main/java/org/codeartisans/gradle/wsdl/WsdlToJava.java:59-80 | the list determines the package (null or not), the WSDL file, the output directory and the debug state it was built from |
| WsdlToJava.VerbosityFlagUnique | src/main/java/org/codeartisans/gradle/wsdl/WsdlToJava.java:73-77 | if no user token is spelled "-Xdebug" or "-quiet", then "-Xdebug" occurs exactly when debugging, and "-quiet" exactly when not |
| WsdlToJava.VerbosityFlagSpelledByPackage | src/main/java/org/codeartisans/gradle/wsdl/WsdlToJava.java:63-77 | a package named "-quiet" in a debug run puts both flags in the list |
| WsdlToJava.EmptyPackageStillPassed | src/main/java/org/codeartisans/gradle/wsdl/WsdlToJava.java:63-66 | an empty, non-null package still gives `-p ""`, and the list differs from the null-package list |
| WsdlToJava.ExampleInvocation | src/main/java/org/codeartisans/gradle/wsdl/WsdlToJava.java:59-80 | the exact 10-token and 8-token lists for `/abs/path/a.wsdl` with package "com.x" and for `/abs/path/b.wsdl` without one, output `/out`, not debugging |
| WsdlTasksPlugin.DefaultRelativePath | src/main/java/org/codeartisans/gradle/wsdl/WsdlTasksPlugin.java:39 | the relative default starts with "generated-sources/" and ends with "/java", and the task name can be read back from between them |
| WsdlTasksPlugin.DefaultOutputDirectory | src/main/java/org/codeartisans/gradle/wsdl/WsdlTasksPlugin.java:37-39 | the default directory is the build directory, a separator, then the relative default; directly under "/" when the build directory is a root |
| WsdlTasksPlugin.OutputDirectory | src/main/java/org/codeartisans/gradle/wsdl/WsdlTasksPlugin.java:40 | the convention: an explicitly set directory when there is one, otherwise the default |
| WsdlTasksPlugin.DefaultOutputDirectoryInjective | src/main/java/org/codeartisans/gradle/wsdl/WsdlTasksPlugin.java:36-39 | tasks with different names under one build directory get different default directories |
| WsdlTasksPlugin.ConventionalRelativePath | src/main/java/org/codeartisans/gradle/wsdl/WsdlTasksPlugin.java:30 | for the conventional task "wsdlToJava", the relative default is "generated-sources/wsdlToJava/java" |
| WsdlTasksPlugin.ConventionalTaskDefault | src/main/java/org/codeartisans/gradle/wsdl/WsdlTasksPlugin.java:30-39 | the conventional task defaults to `<buildDir>/generated-sources/wsdlToJava/java` |
| WsdlTasksPlugin.ConventionalTaskOutputArgument | src/main/java/org/codeartisans/gradle/wsdl/WsdlTasksPlugin.java:36-40 | the conventional task, with no directory of its own, passes `<buildDir>/generated-sources/wsdlToJava/java` after "-s" in every command line |

## Left out

- The worker queue with class-loader isolation (`WsdlToJava.java:53-56`) is out: the model gives back the submitted argument lists in order and does not model the queue, the classpath or the isolation.
- `WsImportWorkAction`, which runs `wsimport` on a submitted list, is out, because it is foreign code run in a worker.
- The host wiring in `apply` is out: creating the `jaxwsTools` configuration and its dependency on `JAXWSTOOLS_LIBRARY`, registering the task with its group and description, contributing `jaxwsTools` to each task, and adding the output directory and dependencies to the main source set (`WsdlTasksPlugin.java:26-33, 42-51`). These are Gradle API calls with no logic of their own.
- The task's `jaxwsToolsConfiguration` getter and setter (`WsdlToJava.java:25-32`) are out. The configuration they store is used only by host wiring (a task input, filled from `jaxwsTools` at `WsdlTasksPlugin.java:42`) and by the worker classpath, both out of the model.
- `Project.file` is out for non-null files: their resolution against the project directory is the function parameter `resolve`. The null case, where it throws, is modelled as the failure of `WsImportArgumentsFor` and `ProcessWsdls`; the exception's type and message are not.
- `getAbsolutePath()` is out for relative paths: the host hands over resolved absolute files, so the model takes a file's absolute path to be its path.
- `java.io.File` path normalisation (collapsing repeated separators and dropping a trailing one) is out: a `File` is its path string as given, so `Name` of a path ending in a separator is empty where `java.io.File` would first drop the separator.
- `FileCollection` is out: `getWsdlFiles` is modelled as the sequence of configured files, and the model does not capture the flattening, de-duplication or lazy resolution a file collection applies, nor how it treats null.
- `NamedDomainObjectContainer` is out: the entries are a sequence in iteration order, and the container's name uniqueness and name-based ordering are not modelled.
- Gradle's input/output annotations, and the `Named` and `Serializable` interfaces of `Wsdl`, are out. They matter only to the host.
