/**
 * Build configuration of the SoC: a record of board, firmware, memory, CPU,
 * peripheral and output settings with defaults, adjusted once after
 * construction according to the firmware target.
 *
 * Construction with keyword arguments is the record constructor followed by
 * `PostInit`; the clock frequency (a floating-point field) is not modelled.
 */
module SocConfig {
  import opened Wrappers

  /** What the SoC is built to run. */
  datatype FirmwareTarget = Bios | Barebone | FreeRtos | Linux {
    /** The target's name, as the enumeration spells its value. */
    function Name(): string {
      match this
      case Bios => "bios"
      case Barebone => "barebone"
      case FreeRtos => "freertos"
      case Linux => "linux"
    }
  }

  /** Looks a target up by its name; any other name is not a target. */
  function TargetNamed(name: string): (t: Option<FirmwareTarget>)
    ensures t.Some? ==> t.value.Name() == name
  {
    if name == "bios" then Some(Bios)
    else if name == "barebone" then Some(Barebone)
    else if name == "freertos" then Some(FreeRtos)
    else if name == "linux" then Some(Linux)
    else None
  }

  /** Every target is found under its own name, so no two targets share a name. */
  lemma TargetNames(t: FirmwareTarget)
    ensures TargetNamed(t.Name()) == Some(t)
  {
  }

  /** The configuration record. Sizes are in bytes. */
  datatype Config = Config(
    boardName: string,
    firmwareTarget: FirmwareTarget,
    withExternalRam: bool,
    integratedRomSize: int,
    integratedSramSize: int,
    externalRamSize: int,
    cpuType: string,
    cpuVariant: string,
    cpuResetAddress: Option<int>,
    withUart: bool,
    withTimer: bool,
    withGpio: bool,
    withI2c: bool,
    withSpi: bool,
    withPwm: bool,
    buildName: string,
    outputDir: string)

  /** The record as the constructor fills it when no argument is given, before adjustment. */
  const Defaults: Config := Config(
    "tang_nano_9k", Bios, true,
    128 * 1024, 8 * 1024, 4 * 1024 * 1024,
    "vexriscv", "standard", None,
    true, true, true, true, true, true,
    "soc", "build")

  /**
   * The adjustment run after construction: a Linux build uses the "linux"
   * CPU variant and no integrated ROM, a FreeRTOS build the "standard"
   * variant; every other field, and every other target, is left alone.
   */
  function PostInit(c: Config): (r: Config)
    ensures r.firmwareTarget == c.firmwareTarget
    ensures c.firmwareTarget == Linux ==> r.cpuVariant == "linux" && r.integratedRomSize == 0
    ensures c.firmwareTarget == FreeRtos ==> r.cpuVariant == "standard" && r.integratedRomSize == c.integratedRomSize
    ensures c.firmwareTarget in {Bios, Barebone} ==> r == c
  {
    match c.firmwareTarget
    case Linux => c.(cpuVariant := "linux", integratedRomSize := 0)
    case FreeRtos => c.(cpuVariant := "standard")
    case Barebone => c
    case Bios => c
  }

  /** The fields the adjustment may touch. */
  predicate SameOutsideCpuAndRom(a: Config, b: Config) {
    a.(cpuVariant := b.cpuVariant, integratedRomSize := b.integratedRomSize) == b
  }

  /** Only the CPU variant and the integrated ROM size can change. */
  lemma PostInitFrame(c: Config)
    ensures SameOutsideCpuAndRom(c, PostInit(c))
    ensures PostInit(c).integratedRomSize == c.integratedRomSize || PostInit(c).integratedRomSize == 0
  {
  }

  /** Adjusting twice is adjusting once. */
  lemma PostInitIdempotent(c: Config)
    ensures PostInit(PostInit(c)) == PostInit(c)
  {
  }

  /** Building with all defaults needs no adjustment: the default target is the BIOS. */
  lemma DefaultsSettled()
    ensures PostInit(Defaults) == Defaults
    ensures Defaults.integratedRomSize == 131072
    ensures Defaults.integratedSramSize == 8192
    ensures Defaults.externalRamSize == 4194304
    ensures OutputPath(Defaults) == "build/tang_nano_9k"
  {
  }

  /** Where the build goes: the board's name inside the output directory. */
  function OutputPath(c: Config): (path: string)
    ensures |path| == |c.outputDir| + 1 + |c.boardName|
    ensures path[..|c.outputDir|] == c.outputDir
    ensures path[|c.outputDir|] == '/'
    ensures path[|c.outputDir| + 1..] == c.boardName
  {
    c.outputDir + "/" + c.boardName
  }

  /** The part of a path after its last separator (all of it when there is none). */
  function LastComponent(path: string): (name: string)
    ensures '/' !in name
    ensures |name| <= |path| && name == path[|path| - |name|..]
    ensures |name| < |path| ==> path[|path| - |name| - 1] == '/'
  {
    if path == [] then []
    else if path[|path| - 1] == '/' then []
    else LastComponent(path[..|path| - 1]) + [path[|path| - 1]]
  }

  /** A board name without separators can be read back from the output path. */
  lemma {:induction false} BoardFromOutputPath(c: Config)
    requires '/' !in c.boardName
    ensures LastComponent(OutputPath(c)) == c.boardName
  {
    SuffixComponent(c.outputDir + "/", c.boardName);
  }

  /** Appending a name without separators after a separator makes it the last component. */
  lemma {:induction false} SuffixComponent(prefix: string, name: string)
    requires prefix != [] && prefix[|prefix| - 1] == '/'
    requires '/' !in name
    ensures LastComponent(prefix + name) == name
  {
    var path := prefix + name;
    if name == [] {
      assert path == prefix;
    } else {
      var init := name[..|name| - 1];
      assert path[..|path| - 1] == prefix + init;
      assert path[|path| - 1] == name[|name| - 1];
      SuffixComponent(prefix, init);
      assert init + [name[|name| - 1]] == name;
    }
  }
}
