/** Target-architecture handling of the build script: the `/MACHINE:` token
    handed to `lib.exe`, and the resolution of the libvlc directory from the
    environment (`vlc_path`). The environment is an explicit map from
    variable names to values. */
module Target {
  import opened Wrappers

  /** Why the build script aborts; each case is a panic in the script. */
  datatype BuildError =
    | MissingVariable(name: string)   // `unwrap`/`expect` on an absent variable
    | UnsupportedArch(arch: string)   // `unreachable!()` on an unknown architecture
    | ToolchainNotFound               // Visual Studio could not be located

  type Env = map<string, string>

  const ArchVariable: string := "CARGO_CFG_TARGET_ARCH"
  const GenericLibDir: string := "VLC_LIB_DIR"

  /** The two architectures the crate supports. */
  predicate Supported(arch: string) {
    arch == "x86" || arch == "x86_64"
  }

  /** `target_arch()`: the architecture cargo reports for the target. */
  function TargetArch(env: Env): (r: Result<string, BuildError>)
    ensures ArchVariable in env <==> r.Success?
    ensures r.Success? ==> r.value == env[ArchVariable]
    ensures r.Failure? ==> r.error == MissingVariable(ArchVariable)
  {
    if ArchVariable in env then Success(env[ArchVariable])
    else Failure(MissingVariable(ArchVariable))
  }

  /** The `/MACHINE:` token of `lib.exe` for an architecture. */
  function MachineToken(arch: string): (r: Result<string, BuildError>)
    ensures r.Success? <==> Supported(arch)
    ensures arch == "x86" ==> r == Success("x86")
    ensures arch == "x86_64" ==> r == Success("x64")
    ensures r.Failure? ==> r.error == UnsupportedArch(arch)
  {
    match arch
    case "x86" => Success("x86")
    case "x86_64" => Success("x64")
    case _ => Failure(UnsupportedArch(arch))
  }

  /** Reads a machine token back as the architecture it was made for. */
  function ArchOfToken(token: string): (r: Option<string>) {
    match token
    case "x86" => Some("x86")
    case "x64" => Some("x86_64")
    case _ => None
  }

  /** The token determines the architecture: the map is injective and
      `ArchOfToken` inverts it on the supported architectures. */
  lemma MachineTokenRoundTrip(arch: string)
    ensures MachineToken(arch).Success? ==> ArchOfToken(MachineToken(arch).value) == Some(arch)
    ensures ArchOfToken(arch).Some? ==> MachineToken(ArchOfToken(arch).value) == Success(arch)
  {
  }

  /** The architecture-specific library-directory variable. */
  function ArchLibDirVariable(arch: string): (r: Result<string, BuildError>)
    ensures r.Success? <==> Supported(arch)
    ensures arch == "x86" ==> r == Success("VLC_LIB_DIR_X86")
    ensures arch == "x86_64" ==> r == Success("VLC_LIB_DIR_X86_64")
    ensures r.Success? ==> |r.value| > |GenericLibDir| && r.value[..|GenericLibDir|] == GenericLibDir
    ensures r.Failure? ==> r.error == UnsupportedArch(arch)
  {
    match arch
    case "x86" => Success("VLC_LIB_DIR_X86")
    case "x86_64" => Success("VLC_LIB_DIR_X86_64")
    case _ => Failure(UnsupportedArch(arch))
  }

  /** `vlc_path()` for a known architecture: the architecture-specific
      variable wins, `VLC_LIB_DIR` is the fallback, and the build fails
      naming `VLC_LIB_DIR` when both are absent. */
  function VlcPath(arch: string, env: Env): (r: Result<string, BuildError>)
    ensures !Supported(arch) ==> r == Failure(UnsupportedArch(arch))
    ensures arch == "x86" && "VLC_LIB_DIR_X86" in env ==> r == Success(env["VLC_LIB_DIR_X86"])
    ensures arch == "x86_64" && "VLC_LIB_DIR_X86_64" in env ==> r == Success(env["VLC_LIB_DIR_X86_64"])
    ensures arch == "x86" && "VLC_LIB_DIR_X86" !in env ==>
              r == (if "VLC_LIB_DIR" in env then Success(env["VLC_LIB_DIR"])
                    else Failure(MissingVariable("VLC_LIB_DIR")))
    ensures arch == "x86_64" && "VLC_LIB_DIR_X86_64" !in env ==>
              r == (if "VLC_LIB_DIR" in env then Success(env["VLC_LIB_DIR"])
                    else Failure(MissingVariable("VLC_LIB_DIR")))
  {
    match ArchLibDirVariable(arch)
    case Failure(e) => Failure(e)
    case Success(specific) =>
      if specific in env then Success(env[specific])
      else if GenericLibDir in env then Success(env[GenericLibDir])
      else Failure(MissingVariable(GenericLibDir))
  }

  /** `vlc_path()` as the script calls it, reading the architecture from
      the environment first. It fails exactly when the architecture is
      absent or unsupported, or both directory variables are absent. */
  function ResolveLibDir(env: Env): (r: Result<string, BuildError>)
    ensures r.Success? <==>
              && ArchVariable in env
              && Supported(env[ArchVariable])
              && (ArchLibDirVariable(env[ArchVariable]).value in env || GenericLibDir in env)
    ensures ArchVariable !in env ==> r == Failure(MissingVariable(ArchVariable))
    ensures ArchVariable in env ==> r == VlcPath(env[ArchVariable], env)
  {
    match TargetArch(env)
    case Failure(e) => Failure(e)
    case Success(arch) => VlcPath(arch, env)
  }

  /** Setting the generic variable never changes the outcome when the
      architecture-specific one is present. */
  lemma SpecificVariableWins(arch: string, env: Env, dir: string)
    requires Supported(arch) && ArchLibDirVariable(arch).value in env
    ensures VlcPath(arch, env[GenericLibDir := dir]) == VlcPath(arch, env)
  {
  }
}
