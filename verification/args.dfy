/** Normalisation of a path before it is embedded in a tool argument:
    `trim_end_matches(r"\")` removes every trailing backslash. */
module PathArg {

  predicate EndsWithBackslash(s: string) {
    |s| > 0 && s[|s| - 1] == '\\'
  }

  /** Reference definition: `p` is `s` with its maximal trailing run of
      backslashes removed. */
  predicate IsTrimOf(p: string, s: string) {
    && p <= s
    && !EndsWithBackslash(p)
    && forall i :: |p| <= i < |s| ==> s[i] == '\\'
  }

  /** `s.trim_end_matches(r"\")`. */
  function TrimTrailingBackslashes(s: string): (r: string)
    ensures IsTrimOf(r, s)
  {
    if EndsWithBackslash(s) then TrimTrailingBackslashes(s[..|s| - 1]) else s
  }

  /** Only one prefix of `s` is its trim, so the reference definition
      determines the function completely. */
  lemma TrimUnique(p: string, s: string)
    requires IsTrimOf(p, s)
    ensures p == TrimTrailingBackslashes(s)
  {
  }

  /** Trimming twice trims nothing more. */
  lemma TrimIdempotent(s: string)
    ensures TrimTrailingBackslashes(TrimTrailingBackslashes(s)) == TrimTrailingBackslashes(s)
  {
  }

  /** Appending a run of backslashes to a path does not change its trim. */
  lemma TrimIgnoresAppendedBackslashes(s: string, run: string)
    requires forall i :: 0 <= i < |run| ==> run[i] == '\\'
    ensures TrimTrailingBackslashes(s + run) == TrimTrailingBackslashes(s)
  {
    var r := TrimTrailingBackslashes(s);
    assert r <= s + run;
    forall i | |r| <= i < |s + run|
      ensures (s + run)[i] == '\\'
    {
      if i >= |s| {
        assert (s + run)[i] == run[i - |s|];
      }
    }
    TrimUnique(r, s + run);
  }
}

/** The tool invocations of `generate_lib_from_dll` and the whole of
    `link_vlc`, as a plan: the commands the script would run and the
    definition it would write. Running the tools is not modelled. */
module GenerateLib {
  import opened Wrappers
  import opened Target
  import DefFile
  import opened PathArg

  /** One external command: program, working directory and arguments. */
  datatype Invocation = Invocation(program: string, workDir: string, args: seq<string>)

  /** The paths the script derives with `Path::join`. */
  datatype Paths = Paths(
    outDir: string,
    dumpbin: string,    // <Visual Studio bin>\dumpbin.exe
    lib: string,        // <Visual Studio bin>\lib.exe
    defFile: string,    // <OUT_DIR>\libvlc.def
    importLib: string,  // <OUT_DIR>\vlc.lib
    dll: string)        // <libvlc dir>\libvlc.dll

  /** What one run of the script does: the dumpbin call, the `.def` file it
      writes, and the lib.exe call. */
  datatype Plan = Plan(dump: Invocation, defPath: string, defContent: string, lib: Invocation)

  /** Arguments of `dumpbin`: the export table of the normalised DLL path. */
  function DumpbinArgs(dll: string): (r: seq<string>)
    ensures |r| == 2 && r[0] == "/EXPORTS" && IsTrimOf(r[1], dll)
  {
    ["/EXPORTS", TrimTrailingBackslashes(dll)]
  }

  /** Arguments of `lib.exe`: no banner, the definition file, the output
      library and the machine of the target; an unsupported architecture
      aborts. */
  function LibArgs(defFile: string, importLib: string, arch: string): (r: Result<seq<string>, BuildError>)
    ensures r.Success? <==> Supported(arch)
    ensures r.Failure? ==> r.error == UnsupportedArch(arch)
    ensures r.Success? ==>
              && |r.value| == 4
              && r.value[0] == "/NOLOGO"
              && DefFile.StartsWith(r.value[1], "/DEF:") && IsTrimOf(r.value[1][5..], defFile)
              && DefFile.StartsWith(r.value[2], "/OUT:") && IsTrimOf(r.value[2][5..], importLib)
              && DefFile.StartsWith(r.value[3], "/MACHINE:") && ArchOfToken(r.value[3][9..]) == Some(arch)
    ensures arch == "x86" ==> r.Success? && r.value[3] == "/MACHINE:x86"
    ensures arch == "x86_64" ==> r.Success? && r.value[3] == "/MACHINE:x64"
  {
    match MachineToken(arch)
    case Failure(e) => Failure(e)
    case Success(token) =>
      MachineTokenRoundTrip(arch);
      var machine := "/MACHINE:" + token;
      assert machine[9..] == token;
      Success(["/NOLOGO",
               "/DEF:" + TrimTrailingBackslashes(defFile),
               "/OUT:" + TrimTrailingBackslashes(importLib),
               machine])
  }

  /** `generate_lib_from_dll`, given the lines dumpbin printed. */
  function GenerateLibFromDll(paths: Paths, arch: string, listing: seq<string>): (r: Result<Plan, BuildError>)
    ensures r.Success? <==> Supported(arch)
    ensures r.Success? ==>
              && r.value.dump.program == paths.dumpbin
              && r.value.dump.workDir == paths.outDir
              && r.value.dump.args == DumpbinArgs(paths.dll)
              && r.value.defPath == paths.defFile
              && r.value.defContent == DefFile.DefContent(listing)
              && r.value.lib.program == paths.lib
              && r.value.lib.workDir == paths.outDir
              && r.value.lib.args == LibArgs(paths.defFile, paths.importLib, arch).value
  {
    match LibArgs(paths.defFile, paths.importLib, arch)
    case Failure(e) => Failure(e)
    case Success(libArgs) =>
      var content := DefFile.DefContent(listing);
      Success(Plan(
        Invocation(paths.dumpbin, paths.outDir, DumpbinArgs(paths.dll)),
        paths.defFile,
        content,
        Invocation(paths.lib, paths.outDir, libArgs)))
  }

  /** `link_vlc`: resolve the libvlc directory, read `OUT_DIR`, locate
      Visual Studio, then generate the import library. `join` stands for
      `Path::join`, `vsExe` for the outcome of the Visual Studio search and
      `listing` for the lines dumpbin prints. */
  function LinkVlc(env: Env, vsExe: Option<string>, join: (string, string) -> string,
                   listing: seq<string>): (r: Result<Plan, BuildError>)
    ensures ResolveLibDir(env).Failure? ==> r == Failure(ResolveLibDir(env).error)
    ensures r.Success? <==> ResolveLibDir(env).Success? && "OUT_DIR" in env && vsExe.Some?
    ensures ResolveLibDir(env).Success? && "OUT_DIR" !in env ==> r == Failure(MissingVariable("OUT_DIR"))
    ensures ResolveLibDir(env).Success? && "OUT_DIR" in env && vsExe.None? ==> r == Failure(ToolchainNotFound)
    ensures r.Success? ==>
              && r.value.dump.program == join(vsExe.value, "dumpbin.exe")
              && r.value.dump.workDir == env["OUT_DIR"]
              && r.value.dump.args == DumpbinArgs(join(ResolveLibDir(env).value, "libvlc.dll"))
              && r.value.defPath == join(env["OUT_DIR"], "libvlc.def")
              && r.value.defContent == DefFile.DefContent(listing)
              && r.value.lib.program == join(vsExe.value, "lib.exe")
              && r.value.lib.workDir == env["OUT_DIR"]
              && r.value.lib.args == LibArgs(join(env["OUT_DIR"], "libvlc.def"),
                                             join(env["OUT_DIR"], "vlc.lib"), env[ArchVariable]).value
              && |r.value.lib.args| == 4 && DefFile.StartsWith(r.value.lib.args[3], "/MACHINE:")
              && ArchOfToken(r.value.lib.args[3][9..]) == Some(env[ArchVariable])
  {
    match ResolveLibDir(env)
    case Failure(e) => Failure(e)
    case Success(vlcDir) =>
      if "OUT_DIR" !in env then Failure(MissingVariable("OUT_DIR"))
      else match vsExe
        case None => Failure(ToolchainNotFound)
        case Some(vsDir) =>
          var outDir := env["OUT_DIR"];
          var paths := Paths(outDir, join(vsDir, "dumpbin.exe"), join(vsDir, "lib.exe"),
                             join(outDir, "libvlc.def"), join(outDir, "vlc.lib"),
                             join(vlcDir, "libvlc.dll"));
          var arch := env[ArchVariable];
          var r := GenerateLibFromDll(paths, arch, listing);
          assert r.Success?;
          r
  }
}
