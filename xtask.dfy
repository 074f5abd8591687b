/** The build tool: the naming tables, linker-script path handling, the
    cargo, objcopy and QEMU command lines, and the choice of build profile.
    Processes, the environment and the configuration file are not run or
    read: their outcomes arrive as a `Host` record and a `LoadResult`. */
module Xtask {
  import opened Wrappers

  datatype Profile = Debug | Release {
    /** `Profile::as_str`. */
    function AsStr(): string {
      match this
      case Debug => "debug"
      case Release => "release"
    }
  }

  datatype Architecture = AArch64 | X86_64 {
    /** `Architecture::target_triple`. */
    function TargetTriple(): string {
      match this
      case AArch64 => "aarch64-unknown-none-softfloat"
      case X86_64 => "x86_64-unknown-none"
    }

    /** `Display for Architecture`. */
    function ToString(): string {
      match this
      case AArch64 => "aarch64"
      case X86_64 => "x86_64"
    }
  }

  datatype VirtualizationProvider = Qemu {
    /** `Display for VirtualizationProvider`: the command-line value name. */
    function ToString(): string {
      "qemu"
    }
  }

  /** Distinct profiles never share a name, so the output directory
      identifies the profile. */
  lemma ProfileNamesInjective(p: Profile, q: Profile)
    ensures p.AsStr() == q.AsStr() <==> p == q
  {
    if p != q {
      assert p.AsStr()[0] != q.AsStr()[0];
    }
  }

  /** Distinct architectures have distinct target triples and display
      names. */
  lemma ArchitectureNamesInjective(a: Architecture, b: Architecture)
    ensures a.TargetTriple() == b.TargetTriple() <==> a == b
    ensures a.ToString() == b.ToString() <==> a == b
  {
    if a != b {
      assert a.TargetTriple()[0] != b.TargetTriple()[0];
      assert a.ToString()[0] != b.ToString()[0];
    }
  }

  // ---------------------------------------------------------------- paths

  /** A path component: a name, or `..`. */
  datatype Component = Normal(name: string) | ParentDir

  /** A path: rooted or not, and its components. */
  datatype Path = Path(absolute: bool, components: seq<Component>)

  /** `base.join(p)`: an absolute `p` replaces `base`. */
  function Join(base: Path, p: Path): Path {
    if p.absolute then p else Path(base.absolute, base.components + p.components)
  }

  /** `base.join(name)` for a single plain name. */
  function JoinName(base: Path, name: string): Path {
    Join(base, Path(false, [Normal(name)]))
  }

  /** `parent()`: drops the last component; none for a root or empty path. */
  function Parent(p: Path): Option<Path> {
    if p.components == [] then None
    else Some(Path(p.absolute, p.components[..|p.components| - 1]))
  }

  /** `file_name()`: the last component when it is a plain name. */
  function FileName(p: Path): Option<string> {
    if p.components == [] then None
    else
      match p.components[|p.components| - 1]
      case Normal(name) => Some(name)
      case ParentDir => None
  }

  /** Joining a name and splitting it off again gives back both parts. */
  lemma JoinNameSplits(base: Path, name: string)
    ensures Parent(JoinName(base, name)) == Some(base)
    ensures FileName(JoinName(base, name)) == Some(name)
  {
    assert (base.components + [Normal(name)])[..|base.components|] == base.components;
  }

  function ComponentText(c: Component): string {
    match c
    case Normal(name) => name
    case ParentDir => ".."
  }

  function RenderComponents(cs: seq<Component>): string
    decreases |cs|
  {
    if cs == [] then ""
    else if |cs| == 1 then ComponentText(cs[0])
    else ComponentText(cs[0]) + "/" + RenderComponents(cs[1..])
  }

  /** `display()`. */
  function Display(p: Path): string {
    (if p.absolute then "/" else "") + RenderComponents(p.components)
  }

  // ----------------------------------------------------------- outcomes

  /** How a step of the tool ends: a value, an error that `main` reports,
      or a `todo!()` panic. */
  datatype TaskResult<T> = Ok(value: T) | Err(message: string) | Todo

  /** The outcome of `load_config`. */
  datatype LoadResult = Loaded(config: Config) | LoadFailed(reason: string)

  /** `Config`, the target configuration file. */
  datatype Config = Config(arch: Architecture, ldPath: Path, machineType: Option<string>)

  /** Everything the tool gets from outside: the `CARGO` and
      `CARGO_WORKSPACE_DIR` variables and whether each spawned process
      reports success (QEMU: whether it could be started at all). */
  datatype Host = Host(
    cargoVar: Option<string>,
    workspaceDir: Option<Path>,
    cargoSucceeds: bool,
    objcopySucceeds: bool,
    qemuStarts: bool)

  /** A process to spawn: program, arguments and added environment. */
  datatype Command = Command(program: string, args: seq<string>, env: seq<(string, string)>)

  const NoWorkspace := "Unable to determine cargo workspace root"
  const NoLdDir := "Unable to determine linker script directory"
  const NoLdName := "Unable to determine linker script file name"
  const BuildFailed := "Kernel build failed"
  const ObjcopyFailed := "Failed to generate kernel binary"
  const QemuFailed := "Failed to run QEMU"

  // ------------------------------------------------------ linker script

  /** The linker script path as used: an absolute path unchanged, a
      relative one under the workspace root. */
  function QualifyLdPath(root: Path, ldPath: Path): (r: Path)
    ensures ldPath.absolute ==> r == ldPath
    ensures r == Join(root, ldPath)
    ensures r.absolute <==> ldPath.absolute || root.absolute
  {
    if ldPath.absolute then ldPath else Join(root, ldPath)
  }

  /** Splits the qualified linker script path into its directory and file
      name; fails when either part is missing. */
  function SplitLdPath(qualified: Path): (r: TaskResult<(Path, string)>)
    ensures !r.Todo?
    ensures r.Ok? <==>
      qualified.components != [] && qualified.components[|qualified.components| - 1].Normal?
    ensures r.Ok? ==> JoinName(r.value.0, r.value.1) == qualified
    ensures r.Err? ==> r.message == (if qualified.components == [] then NoLdDir else NoLdName)
  {
    match Parent(qualified)
    case None => Err(NoLdDir)
    case Some(dir) =>
      match FileName(qualified)
      case None => Err(NoLdName)
      case Some(name) =>
        assert qualified.components == dir.components + [Normal(name)];
        Ok((dir, name))
  }

  // ------------------------------------------------------------- cargo

  /** The arguments `build_kernel` gives cargo. */
  function CargoArgs(triple: string, profile: Profile, virtualization: Option<VirtualizationProvider>): seq<string> {
    ["build", "--package", "ratto-entry", "--target", triple]
    + (if profile == Release then ["--release"] else [])
    + (match virtualization case Some(p) => ["--features", p.ToString()] case None => [])
  }

  /** Cargo always builds `ratto-entry` for the architecture's triple; it is
      given `--release` exactly for a release build and `--features` exactly
      when a provider was named, followed by that provider's name. */
  lemma CargoArgsFlags(arch: Architecture, profile: Profile, virtualization: Option<VirtualizationProvider>)
    ensures var args := CargoArgs(arch.TargetTriple(), profile, virtualization);
      && args[..5] == ["build", "--package", "ratto-entry", "--target", arch.TargetTriple()]
      && ("--release" in args <==> profile == Release)
      && ("--features" in args <==> virtualization.Some?)
      && (virtualization.Some? ==> args[|args| - 1] == virtualization.value.ToString())
  {
    var args := CargoArgs(arch.TargetTriple(), profile, virtualization);
    var fixed := ["build", "--package", "ratto-entry", "--target", arch.TargetTriple()];
    var release := if profile == Release then ["--release"] else [];
    var features := match virtualization case Some(p) => ["--features", p.ToString()] case None => [];
    assert args == fixed + release + features;
    assert "--release" !in fixed by {
      assert "--release"[2] != "build"[2] && "--release"[2] != "--package"[2];
      assert "--release"[2] != "ratto-entry"[2] && "--release"[2] != "--target"[2];
      assert "--release"[0] != arch.TargetTriple()[0];
    }
    assert "--features" !in fixed by {
      assert "--features"[2] != "build"[2] && "--features"[2] != "--package"[2];
      assert "--features"[2] != "ratto-entry"[2] && "--features"[2] != "--target"[2];
      assert "--features"[0] != arch.TargetTriple()[0];
    }
    assert "--release" !in features by {
      if virtualization.Some? {
        assert "--release"[2] != "--features"[2] && "--release"[0] != "qemu"[0];
      }
    }
    assert "--features" !in release by {
      if profile == Release {
        assert "--features"[2] != "--release"[2];
      }
    }
  }

  /** The `RUSTFLAGS` value: abort on panic, and the linker script's
      directory and file name. */
  function RustFlags(ldDir: Path, ldScript: string): string {
    "-C panic=abort -C link-arg=--library-path=" + Display(ldDir) + " -C link-arg=--script=" + ldScript
  }

  /** The cargo invocation, built one argument at a time. */
  method CargoCommand(
    cargo: string, triple: string, profile: Profile,
    virtualization: Option<VirtualizationProvider>, ldDir: Path, ldScript: string)
    returns (cmd: Command)
    ensures cmd == Command(cargo, CargoArgs(triple, profile, virtualization), [("RUSTFLAGS", RustFlags(ldDir, ldScript))])
  {
    var args: seq<string> := [];
    args := args + ["build"];
    args := args + ["--package", "ratto-entry"];
    args := args + ["--target"];
    args := args + [triple];
    if profile == Release {
      args := args + ["--release"];
    }
    match virtualization {
      case Some(provider) =>
        args := args + ["--features"];
        args := args + [provider.ToString()];
      case None =>
    }
    cmd := Command(cargo, args, [("RUSTFLAGS", RustFlags(ldDir, ldScript))]);
  }

  // ------------------------------------------------------ output paths

  /** `<root>/target/<triple>/<profile>/ratto-entry`. */
  function KernelElfPath(root: Path, triple: string, profile: Profile): Path {
    JoinName(JoinName(JoinName(JoinName(root, "target"), triple), profile.AsStr()), "ratto-entry")
  }

  /** `ratto-kernel.bin` in the ELF's directory, if it has one. */
  function KernelBinPath(elf: Path): Option<Path> {
    match Parent(elf)
    case Some(dir) => Some(JoinName(dir, "ratto-kernel.bin"))
    case None => None
  }

  /** The ELF lies under `target/<triple>/<profile>` of the workspace root,
      and the binary is always found: it is the ELF's sibling. */
  lemma KernelPaths(root: Path, triple: string, profile: Profile)
    ensures var elf := KernelElfPath(root, triple, profile);
      && elf.absolute == root.absolute
      && elf.components == root.components + [Normal("target"), Normal(triple), Normal(profile.AsStr()), Normal("ratto-entry")]
      && KernelBinPath(elf).Some?
      && Parent(KernelBinPath(elf).value) == Parent(elf)
      && FileName(KernelBinPath(elf).value) == Some("ratto-kernel.bin")
      && KernelBinPath(elf).value.components
           == root.components + [Normal("target"), Normal(triple), Normal(profile.AsStr()), Normal("ratto-kernel.bin")]
  {
    var dir := JoinName(JoinName(JoinName(root, "target"), triple), profile.AsStr());
    JoinNameSplits(dir, "ratto-entry");
    JoinNameSplits(dir, "ratto-kernel.bin");
  }

  /** The `rust-objcopy` invocation turning the ELF into a raw image. */
  function ObjcopyCommand(elf: Path, bin: Path): Command {
    Command("rust-objcopy", ["--strip-all", "-O", "binary", Display(elf), Display(bin)], [])
  }

  /** Whether `build_kernel` gets past its checks to the per-architecture
      step: the workspace root is known and the linker script path splits. */
  predicate Prepared(config: Config, host: Host) {
    && host.workspaceDir.Some?
    && SplitLdPath(QualifyLdPath(host.workspaceDir.value, config.ldPath)).Ok?
  }

  /** `build_kernel`: runs cargo, then objcopy, and yields the image path. */
  method BuildKernel(config: Config, profile: Profile, virtualization: Option<VirtualizationProvider>, host: Host)
    returns (commands: seq<Command>, r: TaskResult<Path>)
    ensures r.Ok? <==> Prepared(config, host) && config.arch == AArch64 && host.cargoSucceeds && host.objcopySucceeds
    ensures r.Todo? <==> Prepared(config, host) && config.arch == X86_64
    ensures host.workspaceDir.None? ==> r == Err(NoWorkspace)
    ensures host.workspaceDir.Some? && !Prepared(config, host) ==>
      r == Err(SplitLdPath(QualifyLdPath(host.workspaceDir.value, config.ldPath)).message)
    ensures Prepared(config, host) && config.arch == AArch64 && !host.cargoSucceeds ==> r == Err(BuildFailed)
    ensures Prepared(config, host) && config.arch == AArch64 && host.cargoSucceeds && !host.objcopySucceeds ==>
      r == Err(ObjcopyFailed)
    ensures !Prepared(config, host) || config.arch == X86_64 <==> commands == []
    ensures |commands| <= 2
    ensures commands != [] ==>
      var root := host.workspaceDir.value;
      var (ldDir, ldScript) := SplitLdPath(QualifyLdPath(root, config.ldPath)).value;
      var cargo := match host.cargoVar case Some(c) => c case None => "cargo";
      commands[0] == Command(cargo, CargoArgs(config.arch.TargetTriple(), profile, virtualization),
                             [("RUSTFLAGS", RustFlags(ldDir, ldScript))])
    ensures |commands| == 2 <==> commands != [] && host.cargoSucceeds
    ensures |commands| == 2 ==>
      var elf := KernelElfPath(host.workspaceDir.value, config.arch.TargetTriple(), profile);
      commands[1] == ObjcopyCommand(elf, KernelBinPath(elf).value)
    ensures r.Ok? ==>
      Some(r.value) == KernelBinPath(KernelElfPath(host.workspaceDir.value, config.arch.TargetTriple(), profile))
  {
    commands := [];
    var cargo := match host.cargoVar case Some(c) => c case None => "cargo";
    if host.workspaceDir.None? {
      return [], Err(NoWorkspace);
    }
    var root := host.workspaceDir.value;
    var qualified := QualifyLdPath(root, config.ldPath);
    var split := SplitLdPath(qualified);
    if split.Err? {
      return [], Err(split.message);
    }
    var (ldDir, ldScript) := split.value;
    var triple := config.arch.TargetTriple();
    match config.arch {
      case X86_64 =>
        return [], Todo;
      case AArch64 =>
        var cmd := CargoCommand(cargo, triple, profile, virtualization, ldDir, ldScript);
        commands := [cmd];
        if !host.cargoSucceeds {
          return commands, Err(BuildFailed);
        }
    }
    var kernelElf := KernelElfPath(root, triple, profile);
    KernelPaths(root, triple, profile);
    var kernelBin := KernelBinPath(kernelElf).value;
    commands := commands + [ObjcopyCommand(kernelElf, kernelBin)];
    if !host.objcopySucceeds {
      return commands, Err(ObjcopyFailed);
    }
    return commands, Ok(kernelBin);
  }

  // -------------------------------------------------------------- QEMU

  const SemihostingArgs: seq<string> := ["-semihosting", "-semihosting-config", "enable=on,target=native"]

  /** The arguments `run_with_kernel` gives QEMU. */
  function QemuArgs(machineType: Option<string>, kernelImage: Path, extra: seq<string>): seq<string> {
    (match machineType case Some(m) => ["-M", m] case None => [])
    + SemihostingArgs
    + extra
    + ["-kernel", Display(kernelImage), "-nographic", "-serial", "mon:stdio", "-audio", "none"]
  }

  /** `-M <machine>` leads exactly when a machine type is configured; then
      come the semihosting switches, the user's arguments unchanged, and the
      fixed image and console switches. */
  lemma QemuArgsLayout(machineType: Option<string>, kernelImage: Path, extra: seq<string>)
    ensures var args := QemuArgs(machineType, kernelImage, extra);
      var m := if machineType.Some? then 2 else 0;
      && |args| == m + 3 + |extra| + 7
      && (args[0] == "-M" <==> machineType.Some?)
      && (machineType.Some? ==> args[1] == machineType.value)
      && args[m..m + 3] == SemihostingArgs
      && args[m + 3..m + 3 + |extra|] == extra
      && args[m + 3 + |extra|..] == ["-kernel", Display(kernelImage), "-nographic", "-serial", "mon:stdio", "-audio", "none"]
  {
    var args := QemuArgs(machineType, kernelImage, extra);
    var head := match machineType case Some(m) => ["-M", m] case None => [];
    var tail := ["-kernel", Display(kernelImage), "-nographic", "-serial", "mon:stdio", "-audio", "none"];
    assert args == head + SemihostingArgs + extra + tail;
    var m := |head|;
    assert args[m..m + 3] == SemihostingArgs;
    assert args[m + 3..m + 3 + |extra|] == extra;
    assert args[m + 3 + |extra|..] == tail;
    if machineType.None? {
      assert args[0] == "-semihosting";
      assert "-semihosting"[1] != "-M"[1];
    }
  }

  /** `run_with_kernel`: QEMU for AArch64 (with `-M` only when configured);
      x86_64 is `todo!()`. QEMU's exit status is not checked, only whether
      it started. */
  method RunWithKernel(provider: VirtualizationProvider, kernelImage: Path, config: Config, extra: seq<string>, host: Host)
    returns (commands: seq<Command>, r: TaskResult<()>)
    ensures config.arch == X86_64 ==> commands == [] && r == Todo
    ensures config.arch == AArch64 ==>
      && commands == [Command("qemu-system-aarch64", QemuArgs(config.machineType, kernelImage, extra), [])]
      && r == (if host.qemuStarts then Ok(()) else Err(QemuFailed))
  {
    match provider {
      case Qemu =>
        var args: seq<string>;
        match config.arch {
          case AArch64 =>
            args := [];
            match config.machineType {
              case Some(machineType) =>
                args := args + ["-M", machineType];
              case None =>
            }
            args := args + ["-semihosting", "-semihosting-config", "enable=on,target=native"];
          case X86_64 =>
            return [], Todo;
        }
        args := args + extra;
        args := args + ["-kernel"];
        args := args + [Display(kernelImage)];
        args := args + ["-nographic"];
        args := args + ["-serial", "mon:stdio"];
        args := args + ["-audio", "none"];
        assert args == QemuArgs(config.machineType, kernelImage, extra);
        commands := [Command("qemu-system-aarch64", args, [])];
        if !host.qemuStarts {
          return commands, Err(QemuFailed);
        }
    }
    return commands, Ok(());
  }

  // -------------------------------------------------------------- main

  /** The subcommands. */
  datatype CliCommand =
    | Build(configPath: Path, profile: Profile, virtualization: Option<VirtualizationProvider>)
    | Run(configPath: Path, profile: Profile, provider: VirtualizationProvider, args: seq<string>)

  /** `try_main` once the command line is parsed and the configuration file
      read: `Build` builds with the chosen profile; `Run` always builds a
      debug image, whatever profile was given, then runs it. */
  method TryMain(command: Option<CliCommand>, loaded: LoadResult, host: Host)
    returns (commands: seq<Command>, r: TaskResult<()>)
    ensures command.None? ==> commands == [] && r == Ok(())
    ensures command.Some? && loaded.LoadFailed? ==> commands == [] && r == Err(loaded.reason)
    ensures command.Some? && command.value.Build? && loaded.Loaded? && commands != [] ==>
      commands[0].args == CargoArgs(loaded.config.arch.TargetTriple(), command.value.profile, command.value.virtualization)
    ensures command.Some? && command.value.Run? && loaded.Loaded? && commands != [] ==>
      commands[0].args == CargoArgs(loaded.config.arch.TargetTriple(), Debug, Some(command.value.provider))
    ensures command.Some? && command.value.Build? && loaded.Loaded? ==>
      var config := loaded.config;
      && (r.Ok? <==> Prepared(config, host) && config.arch == AArch64 && host.cargoSucceeds && host.objcopySucceeds)
      && (r.Todo? <==> Prepared(config, host) && config.arch == X86_64)
      && (host.workspaceDir.None? ==> r == Err(NoWorkspace))
      && (host.workspaceDir.Some? && !Prepared(config, host) ==>
            r == Err(SplitLdPath(QualifyLdPath(host.workspaceDir.value, config.ldPath)).message))
      && (Prepared(config, host) && config.arch == AArch64 && !host.cargoSucceeds ==> r == Err(BuildFailed))
      && (Prepared(config, host) && config.arch == AArch64 && host.cargoSucceeds && !host.objcopySucceeds ==>
            r == Err(ObjcopyFailed))
    ensures command.Some? && command.value.Run? && loaded.Loaded? ==>
      var config := loaded.config;
      && (r.Ok? <==>
            Prepared(config, host) && config.arch == AArch64 && host.cargoSucceeds && host.objcopySucceeds
            && host.qemuStarts)
      && (r.Todo? <==> Prepared(config, host) && config.arch == X86_64)
      && (host.workspaceDir.None? ==> r == Err(NoWorkspace))
      && (host.workspaceDir.Some? && !Prepared(config, host) ==>
            r == Err(SplitLdPath(QualifyLdPath(host.workspaceDir.value, config.ldPath)).message))
      && (Prepared(config, host) && config.arch == AArch64 && !host.cargoSucceeds ==> r == Err(BuildFailed))
      && (Prepared(config, host) && config.arch == AArch64 && host.cargoSucceeds && !host.objcopySucceeds ==>
            r == Err(ObjcopyFailed))
      && (Prepared(config, host) && config.arch == AArch64 && host.cargoSucceeds && host.objcopySucceeds ==>
            (r.Err? <==> !host.qemuStarts) && (r.Err? ==> r.message == QemuFailed))
    ensures command.Some? && command.value.Run? && r.Ok? ==>
      && loaded.Loaded?
      && host.workspaceDir.Some?
      && |commands| == 3
      && var elf := KernelElfPath(host.workspaceDir.value, loaded.config.arch.TargetTriple(), Debug);
         commands[2] == Command("qemu-system-aarch64",
                                QemuArgs(loaded.config.machineType, KernelBinPath(elf).value, command.value.args), [])
  {
    match command {
      case None =>
        return [], Ok(());
      case Some(Build(_, profile, virtualization)) =>
        if loaded.LoadFailed? {
          return [], Err(loaded.reason);
        }
        var built;
        commands, built := BuildKernel(loaded.config, profile, virtualization, host);
        r := match built case Ok(_) => Ok(()) case Err(message) => Err(message) case Todo => Todo;
      case Some(Run(_, _, provider, args)) =>
        if loaded.LoadFailed? {
          return [], Err(loaded.reason);
        }
        var built;
        commands, built := BuildKernel(loaded.config, Debug, Some(provider), host);
        match built {
          case Ok(kernelImage) =>
            var launched: seq<Command>;
            launched, r := RunWithKernel(provider, kernelImage, loaded.config, args, host);
            commands := commands + launched;
          case Err(message) =>
            return commands, Err(message);
          case Todo =>
            return commands, Todo;
        }
    }
  }
}
