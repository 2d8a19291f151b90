/**
  The part of the plugin that is not host wiring: the conventional output
  directory every `WsdlToJava` task gets, `<buildDir>/generated-sources/<task name>/java`,
  and its use as a convention that an explicitly configured directory overrides.
 */
module WsdlTasksPlugin {
  import opened Wrappers
  import opened Files
  import WsdlToJava

  /** The name of the task the plugin registers. */
  const ConventionalTaskName: string := "wsdlToJava"

  const GeneratedSources: string := "generated-sources/"
  const LanguageSuffix: string := "/java"

  /**
    The default directory relative to the build directory: the fixed prefix,
    the task's name, the fixed suffix. The name can be read back from between
    the two.
   */
  function DefaultRelativePath(taskName: string): (r: string)
    ensures |r| == |GeneratedSources| + |taskName| + |LanguageSuffix|
    ensures GeneratedSources <= r && IsSuffix(LanguageSuffix, r)
    ensures r[|GeneratedSources|..|r| - |LanguageSuffix|] == taskName
  {
    GeneratedSources + taskName + LanguageSuffix
  }

  /** `new File(project.getBuildDir(), "generated-sources/" + task.getName() + "/java")`. */
  function DefaultOutputDirectory(buildDir: File, taskName: string): (r: File)
    ensures !IsRootParent(buildDir.path) ==> r.path == buildDir.path + [Separator] + DefaultRelativePath(taskName)
    ensures IsRootParent(buildDir.path) ==> r.path == [Separator] + DefaultRelativePath(taskName)
  {
    Child(buildDir, DefaultRelativePath(taskName))
  }

  /**
    The task's output directory: the one set explicitly when there is one,
    otherwise the conventional default.
   */
  function OutputDirectory(explicit: Option<File>, buildDir: File, taskName: string): (r: File)
    ensures explicit.Some? ==> r == explicit.value
    ensures explicit.None? ==> r == DefaultOutputDirectory(buildDir, taskName)
  {
    match explicit
    case Some(dir) => dir
    case None => DefaultOutputDirectory(buildDir, taskName)
  }

  /**
    Distinct tasks under one build directory get distinct default directories:
    the fixed prefix and suffix around the name keep them apart.
   */
  lemma DefaultOutputDirectoryInjective(buildDir: File, a: string, b: string)
    requires a != b
    ensures DefaultOutputDirectory(buildDir, a) != DefaultOutputDirectory(buildDir, b)
  {
    // both paths are one prefix followed by the relative part, which gives the name back
    var ra, rb := DefaultRelativePath(a), DefaultRelativePath(b);
    var pa, pb := DefaultOutputDirectory(buildDir, a).path, DefaultOutputDirectory(buildDir, b).path;
    var n := if IsRootParent(buildDir.path) then 1 else |buildDir.path| + 1;
    assert pa[n..] == ra && pb[n..] == rb;
    assert ra[|GeneratedSources|..|ra| - |LanguageSuffix|] == a;
    assert rb[|GeneratedSources|..|rb| - |LanguageSuffix|] == b;
  }

  /** The conventionally registered task defaults to `<buildDir>/generated-sources/wsdlToJava/java`. */
  lemma ConventionalTaskDefault(buildDir: File)
    requires !IsRootParent(buildDir.path)
    ensures DefaultOutputDirectory(buildDir, ConventionalTaskName).path
         == buildDir.path + [Separator] + "generated-sources/wsdlToJava/java"
  {
    ConventionalRelativePath();
  }

  /** The relative part of that default. */
  lemma ConventionalRelativePath()
    ensures DefaultRelativePath(ConventionalTaskName) == "generated-sources/wsdlToJava/java"
  {
  }

  /**
    For the conventionally registered task with no directory of its own, every
    command line it submits names `<buildDir>/generated-sources/wsdlToJava/java`
    after "-s".
   */
  lemma ConventionalTaskOutputArgument(buildDir: File, packageName: Option<string>, wsdlFile: File, debug: bool)
    requires !IsRootParent(buildDir.path)
    ensures var r := WsdlToJava.Arguments(packageName, wsdlFile, OutputDirectory(None, buildDir, ConventionalTaskName), debug);
            r[|r| - 6] == "-s" && r[|r| - 5] == buildDir.path + [Separator] + "generated-sources/wsdlToJava/java"
  {
    var dir := OutputDirectory(None, buildDir, ConventionalTaskName);
    ConventionalTaskDefault(buildDir);
    var r := WsdlToJava.Arguments(packageName, wsdlFile, dir, debug);
    assert r[|r| - 5] == dir.path;
  }
}
