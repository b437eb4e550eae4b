# libvlc import-library generation, modelled in Dafny

The crate's Windows build script links against `libvlc.dll`, for which no
MSVC import library ships. It asks `dumpbin /EXPORTS` for the DLL's export
table, keeps the rows whose name (printed from byte column 26 on) starts with
`libvlc_`, writes them as a module-definition file `libvlc.def`, and has
`lib.exe` turn that file into `vlc.lib` for the target machine. This project
models that pipeline as pure functions:

- `DefFile` (`def_file.dfy`): the fixed-column filter and the `.def`
  serialisation, a loop-based `BuildDef` that follows the script statement by
  statement, a parser that reads a definition back, and the lemmas about order,
  count, duplicates, short lines and the header.
- `Target` (`target.dfy`): the `/MACHINE:` token per architecture and
  `vlc_path`, the resolution of the libvlc directory from an explicit
  environment map.
- `PathArg` and `GenerateLib` (`args.dfy`): the trailing-backslash trimming
  applied to every path argument, and the commands `generate_lib_from_dll`
  and `link_vlc` would run, as a `Plan` value.
- `Wrappers` (`wrappers.dfy`): `Option` and `Result`. Every panic of the
  modelled steps (a missing environment variable, an unsupported
  architecture, Visual Studio not found) is a `Failure` carrying a
  `BuildError`. The panics of the I/O steps that are not modelled
  (build.rs:56, 57, 68, 93) have no `BuildError` case; see "Left out".

The definition header is `EXPORTS` followed by LF alone, while every symbol
line ends in CRLF (build.rs:59, 64). A listing with no `libvlc_` row is not an error: the
definition is then the header alone, as in the code.

## Model

| member | source | states |
|---|---|---|
| DefFile.Remainder | build.rs:61 | `line.get(26..)` is present exactly when the line reaches column 26, and then the line is its first 26 characters followed by the remainder |
| DefFile.Symbol | build.rs:61-62 | a line yields a symbol iff it is an API line (reaches column 26 and its remainder starts with `libvlc_`); the symbol is that remainder and carries the prefix |
| DefFile.SymbolsSingle | build.rs:61-65 | one listing line contributes its remainder if it is an API line and nothing otherwise |
| DefFile.Kept | build.rs:61-65 | a line contributes at most one symbol, and exactly one iff it is an API line |
| DefFile.Symbols | build.rs:60-66 | the reference filter: the extracted symbols of a listing, in listing order, never more than the listing's lines; it is characterised exactly by `DefFile.SymbolsAreKeptRemainders` and `DefFile.SymbolMembership` |
| DefFile.DefContent | build.rs:59-67 | the reference content of `libvlc.def`: it always starts with the LF-only header `EXPORTS\n`, even for an empty symbol list; the rest is each symbol followed by CRLF |
| DefFile.KeptIndices | build.rs:60-66 | the indices of the API lines: all in range, ascending, each an API line, and every API line's index among them |
| DefFile.BuildDef | build.rs:59-67 | the loop's result equals the reference definition content (`EXPORTS\n` followed by each extracted symbol and CRLF) and starts with `EXPORTS\n`; reading it back is `DefFile.DefRoundTrip` |
| DefFile.SymbolsSnoc | build.rs:60-65 | one more listing line appends exactly its own contribution after the symbols of the lines before it |
| DefFile.SymbolsAppend | build.rs:60-66 | extraction distributes over concatenation of listings: input order is kept, nothing is merged |
| DefFile.ShortLineDropped | build.rs:61 | a line shorter than 26 characters is dropped wherever it occurs, without error |
| DefFile.NonApiLineDropped | build.rs:61-62 | headers, summaries and non-`libvlc_` rows are dropped silently wherever they occur |
| DefFile.ApiLineKept | build.rs:62-65 | an API line contributes its remainder at its own position between the symbols before and after it |
| DefFile.DuplicatesKept | build.rs:60-65 | a repeated API line gives a repeated symbol: no deduplication |
| DefFile.SymbolsAreKeptRemainders | build.rs:60-66 | the symbols are exactly the remainders of the API lines, one per API line, in ascending line order: no sorting, no deduplication |
| DefFile.SymbolMembership | build.rs:60-66 | a string is an extracted symbol iff some API line has it as its remainder |
| DefFile.AllShortGivesHeaderOnly | build.rs:59-61 | when every line is shorter than 26 characters the symbol list is empty and the content is the header alone |
| DefFile.DefRoundTrip | build.rs:59-67 | for LF-free lines the content parses back as the `EXPORTS` header followed by exactly the extracted symbols, each on its own CRLF-terminated line |
| DefFile.SymbolLineCount | build.rs:60-66 | the number of CRLF-terminated symbol lines equals the number of API lines |
| DefFile.RowAtColumn | build.rs:61-62 | a row made of 26 leading characters and a name is kept, as that name, iff the name starts with `libvlc_` |
| DefFile.BlankPaddedSymbols | build.rs:60-66 | of the rows `<26 blanks>libvlc_new` and `<26 blanks>some_internal` only `libvlc_new` is extracted |
| DefFile.BlankPaddedExample | build.rs:59-67 | the content for those two rows is `EXPORTS\n` then `libvlc_new\r\n` |
| DefFile.DumpbinTableSymbols | build.rs:60-66 | on a realistic dumpbin table the banner, column header, foreign row and summary are dropped and the two `libvlc_` rows are kept in order |
| DefFile.DumpbinTableExample | build.rs:59-67 | the content for that table is `EXPORTS\n` then `libvlc_add_intf\r\n` then `libvlc_new\r\n` |
| Target.TargetArch | build.rs:110-112 | the architecture is the value of `CARGO_CFG_TARGET_ARCH`; its absence aborts naming that variable |
| Target.MachineToken | build.rs:85-89 | `x86` maps to `x86`, `x86_64` to `x64`; every other architecture is rejected, not passed through |
| Target.MachineTokenRoundTrip | build.rs:85-89 | the token determines the architecture: reading it back gives the architecture it was made for |
| Target.ArchLibDirVariable | build.rs:98-102 | `x86` reads `VLC_LIB_DIR_X86` and `x86_64` reads `VLC_LIB_DIR_X86_64`, both distinct from and extending `VLC_LIB_DIR`; other architectures are unreachable |
| Target.VlcPath | build.rs:96-108 | the architecture-specific directory wins, `VLC_LIB_DIR` is the fallback, failure naming `VLC_LIB_DIR` only when both are absent, an unsupported architecture is rejected |
| Target.ResolveLibDir | build.rs:96-112 | the library directory resolves iff the architecture is set and supported and one of its two directory variables is set; an absent architecture aborts naming `CARGO_CFG_TARGET_ARCH`; otherwise the result is `vlc_path` for that architecture |
| Target.SpecificVariableWins | build.rs:104-107 | when the architecture-specific variable is set, no value of `VLC_LIB_DIR` changes the result |
| PathArg.TrimTrailingBackslashes | build.rs:54 | the result is a prefix of the input that does not end in `\` and only backslashes were removed |
| PathArg.TrimUnique | build.rs:77 | any prefix with those three properties is the trim: only the maximal trailing run is removed |
| PathArg.TrimIdempotent | build.rs:81 | trimming is idempotent |
| PathArg.TrimIgnoresAppendedBackslashes | build.rs:54 | appending backslashes to a path does not change its trimmed form |
| GenerateLib.DumpbinArgs | build.rs:51-56 | dumpbin gets `/EXPORTS` and the DLL path with its trailing backslashes trimmed |
| GenerateLib.LibArgs | build.rs:71-91 | lib.exe gets `/NOLOGO`, `/DEF:` and `/OUT:` with trimmed paths, and a `/MACHINE:` token that reads back as the target architecture (`x64` for `x86_64`, `x86` for `x86`); other architectures abort |
| GenerateLib.GenerateLibFromDll | build.rs:42-94 | the plan exists iff the architecture is supported; dumpbin runs on the DLL and lib.exe on the `.def` file, both in the output directory; the `.def` written is the definition content of the listing |
| GenerateLib.LinkVlc | build.rs:19-30 | a failure to resolve the library directory aborts before any tool is planned; then a missing `OUT_DIR` aborts naming it, then a missing Visual Studio aborts as `ToolchainNotFound`; a plan runs Visual Studio's `dumpbin.exe` and `lib.exe` in `OUT_DIR`, dumps `libvlc.dll` from the resolved directory, writes the definition of the listing to `OUT_DIR\libvlc.def`, and gives lib.exe that file, `OUT_DIR\vlc.lib` and the target's machine token |

## Left out

- Running `dumpbin.exe` and `lib.exe` (build.rs:51-56, 71-93): process I/O. The model returns the commands as `Invocation` values; the dumpbin output enters as the `listing` parameter. The script never waits for `lib.exe` (`spawn` without `wait`), so its exit status is unchecked; that detached execution is outside a sequential model.
- `String::from_utf8(...).unwrap()` on dumpbin's output (build.rs:57): the listing is taken as already decoded. This panic, and those of `output().unwrap()` (build.rs:56), `fs::write(...).unwrap()` (build.rs:68) and `spawn().unwrap()` (build.rs:93), have no `BuildError` case.
- `str::lines` (build.rs:60): the listing is taken as already split into lines. Lines are sequences of characters and column 26 is a character offset; for non-ASCII text Rust's byte offset and a failing `get` on a non-character boundary are not modelled.
- `fs::write` of `libvlc.def` (build.rs:68): filesystem I/O; the plan records the path and content.
- `Path::join` and `display()` (build.rs:45-50): `LinkVlc` takes the join operation as a parameter `join`.
- Visual Studio discovery through `VsFindResult` (build.rs:24-28): a foreign call; its outcome is the `vsExe` parameter, and both of its failure points map to `ToolchainNotFound`.
- The `cargo:` directives printed by `link_vlc` (build.rs:31, 39): build-system output.
- The `cfg` and `compile_error!` platform gating (build.rs:2, 6-9): compile-time configuration. The gate tests the architecture the build script itself is compiled for (the host), while `CARGO_CFG_TARGET_ARCH` names the target. `UnsupportedArch` failures therefore still occur when cross-compiling for an unsupported target architecture, and the model keeps them.
- `env::var` versus `env::var_os` (build.rs:22, 99-105, 111): the environment is a map of strings, so non-Unicode values are not modelled. `Env` maps each exact variable name to what `env::var_os` returns for it, so the case-insensitive lookup of Windows environment names (`vlc_lib_dir` found as `VLC_LIB_DIR`) is outside the model.
- GenerateLib.GenerateLibFromDll: in the script the `/MACHINE` `unreachable!` fires only after dumpbin ran and the `.def` was written; the model returns the failure with no plan. `LinkVlc` already fails earlier for such an architecture, through `vlc_path`.
