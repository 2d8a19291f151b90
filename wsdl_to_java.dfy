/**
  The `wsdlToJava` task: for every configured `Wsdl` entry it assembles the
  command line of the `wsimport` code generator and submits one work item
  carrying it. The resolution of a configured file by the project
  (`Project.file`) is the parameter `resolve`; the task's output directory is
  given already resolved; the logger's debug state is the flag `debug`.
 */
module WsdlToJava {
  import opened Wrappers
  import opened Files
  import opened WsdlDescriptor

  /** The verbosity flag: "-Xdebug" when debug logging is on, "-quiet" otherwise. */
  function VerbosityFlag(debug: bool): string {
    if debug then "-Xdebug" else "-quiet"
  }

  /**
    The `wsimport` command line for one entry, from the values it is made of:
    the package override when the package name is not null, the location hint,
    the output directory, the two fixed flags, the verbosity flag and the WSDL
    file last. The contract states where each token sits, counted from the end
    so that it holds with and without the package override.
   */
  function CommandLine(packageName: Option<string>, location: string, outputPath: string,
                       debug: bool, wsdlPath: string): (r: seq<string>)
    ensures |r| == if packageName.Some? then 10 else 8
    ensures r[0] == "-p" <==> packageName.Some?
    ensures packageName.Some? ==> r[1] == packageName.value
    ensures r[|r| - 8] == "-wsdllocation" && r[|r| - 7] == location
    ensures r[|r| - 6] == "-s" && r[|r| - 5] == outputPath
    ensures r[|r| - 4] == "-extension" && r[|r| - 3] == "-Xnocompile"
    ensures r[|r| - 2] == VerbosityFlag(debug)
    ensures r[|r| - 1] == wsdlPath
  {
    var tail := ["-wsdllocation", location, "-s", outputPath,
                 "-extension", "-Xnocompile", VerbosityFlag(debug), wsdlPath];
    match packageName
    case None => tail
    case Some(p) => ["-p", p] + tail
  }

  /**
    The command line for an entry whose file the project resolved to
    `wsdlFile`: the location hint is the file's name, the last component of
    the absolute path that ends the list, so it holds no separator.
   */
  function Arguments(packageName: Option<string>, wsdlFile: File, outputDir: File, debug: bool): (r: seq<string>)
    ensures |r| == if packageName.Some? then 10 else 8
    ensures r[|r| - 7] == Name(wsdlFile) && Separator !in r[|r| - 7]
    ensures r[|r| - 5] == AbsolutePath(outputDir)
    ensures r[|r| - 1] == AbsolutePath(wsdlFile)
    ensures IsSuffix(r[|r| - 7], r[|r| - 1])
  {
    CommandLine(packageName, Name(wsdlFile), AbsolutePath(outputDir), debug, AbsolutePath(wsdlFile))
  }

  /**
    `wsImportArgumentsFor`: resolves the entry's file through the project and
    fills the list token by token. The project refuses a null file, so an
    entry without one yields no list (`None`): the call fails. The project
    resolves every file it accepts to an absolute one, and the output
    directory is absolute, so both paths in the list are absolute.
   */
  method WsImportArgumentsFor(wsdl: Wsdl, resolve: File -> File, outputDir: File, debug: bool)
    returns (arguments: Option<seq<string>>)
    requires IsAbsolute(outputDir)
    requires forall f :: IsAbsolute(resolve(f))
    ensures arguments.None? <==> wsdl.wsdl.None?
    ensures wsdl.wsdl.Some? ==>
              arguments == Some(Arguments(wsdl.packageName, resolve(wsdl.wsdl.value), outputDir, debug))
    ensures arguments.Some? ==> var r := arguments.value;
              IsAbsolute(File(r[|r| - 5])) && IsAbsolute(File(r[|r| - 1]))
  {
    var configured := wsdl.GetWsdl();
    if configured.None? {
      // `Project.file(null)` throws
      return None;
    }
    var wsdlFile := resolve(configured.value);
    var packageName := wsdl.GetPackageName();
    var list := AddArguments(packageName, Name(wsdlFile), AbsolutePath(outputDir), debug, AbsolutePath(wsdlFile));
    arguments := Some(list);
  }

  /** The successive `add` calls of `wsImportArgumentsFor`, on values already computed. */
  method AddArguments(packageName: Option<string>, location: string, outputPath: string,
                      debug: bool, wsdlPath: string)
    returns (arguments: seq<string>)
    ensures arguments == CommandLine(packageName, location, outputPath, debug, wsdlPath)
  {
    arguments := [];
    if packageName.Some? {
      arguments := arguments + ["-p"];
      arguments := arguments + [packageName.value];
    }
    ghost var head := arguments;
    arguments := arguments + ["-wsdllocation"];
    arguments := arguments + [location];
    arguments := arguments + ["-s"];
    arguments := arguments + [outputPath];
    assert arguments == head + ["-wsdllocation", location, "-s", outputPath];
    arguments := arguments + ["-extension"];
    arguments := arguments + ["-Xnocompile"];
    if debug {
      arguments := arguments + ["-Xdebug"];
    } else {
      arguments := arguments + ["-quiet"];
    }
    arguments := arguments + [wsdlPath];
    assert arguments == head + ["-wsdllocation", location, "-s", outputPath,
                                "-extension", "-Xnocompile", VerbosityFlag(debug), wsdlPath];
  }

  /**
    `processWsdls`: one work item per configured entry, in iteration order,
    each carrying that entry's argument list. The first entry without a file
    makes the task fail (`failed`): the items before it are submitted, it and
    the entries after it are not.
   */
  method ProcessWsdls(wsdls: seq<Wsdl>, resolve: File -> File, outputDir: File, debug: bool)
    returns (submitted: seq<seq<string>>, failed: bool)
    requires IsAbsolute(outputDir)
    requires forall f :: IsAbsolute(resolve(f))
    ensures |submitted| <= |wsdls|
    ensures forall i :: 0 <= i < |submitted| ==>
              wsdls[i].wsdl.Some? &&
              submitted[i] == Arguments(wsdls[i].packageName, resolve(wsdls[i].wsdl.value), outputDir, debug)
    ensures failed <==> |submitted| < |wsdls|
    ensures failed ==> wsdls[|submitted|].wsdl.None?
    ensures !failed <==> forall i :: 0 <= i < |wsdls| ==> wsdls[i].wsdl.Some?
  {
    submitted := [];
    for i := 0 to |wsdls|
      invariant |submitted| == i
      invariant forall k :: 0 <= k < i ==>
                  wsdls[k].wsdl.Some? &&
                  submitted[k] == Arguments(wsdls[k].packageName, resolve(wsdls[k].wsdl.value), outputDir, debug)
    {
      var arguments := WsImportArgumentsFor(wsdls[i], resolve, outputDir, debug);
      if arguments.None? {
        return submitted, true;
      }
      submitted := submitted + [arguments.value];
    }
    failed := false;
  }

  /** `getWsdlFiles`: the configured file of every entry, in iteration order. */
  method GetWsdlFiles(wsdls: seq<Wsdl>) returns (files: seq<Option<File>>)
    ensures |files| == |wsdls|
    ensures forall i :: 0 <= i < |wsdls| ==> files[i] == wsdls[i].wsdl
    ensures forall w :: w in wsdls ==> w.wsdl in files
  {
    files := [];
    for i := 0 to |wsdls|
      invariant |files| == i
      invariant forall k :: 0 <= k < i ==> files[k] == wsdls[k].wsdl
    {
      var f := wsdls[i].GetWsdl();
      files := files + [f];
    }
    forall w | w in wsdls ensures w.wsdl in files {
      var k :| 0 <= k < |wsdls| && wsdls[k] == w;
      assert files[k] == w.wsdl;
    }
  }

  /**
    The argument list loses nothing: it determines the package name, the WSDL
    file, the output directory and the debug flag it was built from.
   */
  lemma ArgumentsInjective(p1: Option<string>, f1: File, o1: File, d1: bool,
                           p2: Option<string>, f2: File, o2: File, d2: bool)
    requires Arguments(p1, f1, o1, d1) == Arguments(p2, f2, o2, d2)
    ensures p1 == p2 && f1 == f2 && o1 == o2 && d1 == d2
  {
    var r := Arguments(p1, f1, o1, d1);
    assert p1.Some? <==> p2.Some?;
    if p1.Some? {
      assert r[1] == p1.value == p2.value;
    }
    assert r[|r| - 1] == f1.path == f2.path;
    assert r[|r| - 5] == o1.path == o2.path;
    assert r[|r| - 2] == VerbosityFlag(d1) == VerbosityFlag(d2);
  }

  /** A token that is neither of the two verbosity flags. */
  predicate NotVerbosityFlag(s: string) {
    s != "-Xdebug" && s != "-quiet"
  }

  /**
    Exactly one verbosity flag occurs, "-Xdebug" iff debug logging is on, as
    long as none of the user-supplied tokens spells a verbosity flag.
   */
  lemma VerbosityFlagUnique(packageName: Option<string>, location: string, outputPath: string,
                            debug: bool, wsdlPath: string)
    requires packageName.Some? ==> NotVerbosityFlag(packageName.value)
    requires NotVerbosityFlag(location) && NotVerbosityFlag(outputPath) && NotVerbosityFlag(wsdlPath)
    ensures "-Xdebug" in CommandLine(packageName, location, outputPath, debug, wsdlPath) <==> debug
    ensures "-quiet" in CommandLine(packageName, location, outputPath, debug, wsdlPath) <==> !debug
  {
    var r := CommandLine(packageName, location, outputPath, debug, wsdlPath);
    var flag := VerbosityFlag(debug);
    var tail := ["-wsdllocation", location, "-s", outputPath, "-extension", "-Xnocompile", flag, wsdlPath];
    if packageName.Some? {
      assert r == ["-p", packageName.value] + tail;
      assert forall t :: t in r <==> t == "-p" || t == packageName.value || t in tail;
    } else {
      assert r == tail;
    }
  }

  /**
    Without that proviso both flags can occur: a package named "-quiet" in a
    debug run puts "-quiet" in the list beside "-Xdebug". The flag that matters
    is the one at its fixed position.
   */
  lemma VerbosityFlagSpelledByPackage()
    ensures var r := Arguments(Some("-quiet"), File("/a.wsdl"), File("/out"), true);
            "-Xdebug" in r && "-quiet" in r
  {
    var r := Arguments(Some("-quiet"), File("/a.wsdl"), File("/out"), true);
    assert r[1] == "-quiet" && r[|r| - 2] == "-Xdebug";
  }

  /** An empty package name is not null, so it is still passed with "-p". */
  lemma EmptyPackageStillPassed(wsdlFile: File, outputDir: File, debug: bool)
    ensures Arguments(Some(""), wsdlFile, outputDir, debug)[..2] == ["-p", ""]
    ensures Arguments(Some(""), wsdlFile, outputDir, debug) != Arguments(None, wsdlFile, outputDir, debug)
  {
  }

  /** The command line for `a.wsdl` under `/abs/path`, package "com.x", output `/out`, not debugging. */
  lemma ExampleInvocation()
    ensures Arguments(Some("com.x"), File("/abs/path/a.wsdl"), File("/out"), false)
         == ["-p", "com.x", "-wsdllocation", "a.wsdl", "-s", "/out",
             "-extension", "-Xnocompile", "-quiet", "/abs/path/a.wsdl"]
    ensures Arguments(None, File("/abs/path/b.wsdl"), File("/out"), false)
         == ["-wsdllocation", "b.wsdl", "-s", "/out",
             "-extension", "-Xnocompile", "-quiet", "/abs/path/b.wsdl"]
  {
    NameUnique(File("/abs/path/a.wsdl"), "a.wsdl");
    NameUnique(File("/abs/path/b.wsdl"), "b.wsdl");
  }
}
