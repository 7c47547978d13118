/**
 * BaseOptimizer with its two subclasses, JpegOptimizer and PngOptimizer, as
 * one class. The fields the subclasses add are held in a `Settings` value
 * tagged with the backend; the methods specific to one subclass require
 * that tag. `Config` is the part of the state the command builders read,
 * and the pure functions over it specify the methods.
 */
module Optimizers {
  import opened Wrappers
  import opened PhpStrings
  import opened PhpArrays
  import opened PhpValues
  import opened Errors
  import opened OptionFlags
  import opened JpegCommands
  import opened PngCommands
  import opened Environment

  datatype Kind = JpegKind | PngKind

  datatype Settings =
    | JpegSettings(quality: int, stripAll: bool, progressive: bool)
    | PngSettings(tool: string, quality: int, speed: int)

  datatype Config = Config(settings: Settings, binaryPath: string, options: Entries<Value>, overwrite: bool)

  /** Quality and speed stay in their clamped ranges; the options form a PHP array. */
  predicate ValidConfig(c: Config)
  {
    && 0 <= c.settings.quality <= 100
    && (c.settings.PngSettings? ==> 1 <= c.settings.speed <= 10)
    && DistinctKeys(c.options)
  }

  /** `max(lo, min(hi, v))`. */
  function Clamp(v: int, lo: int, hi: int): (r: int)
    requires lo <= hi
    ensures lo <= r <= hi
    ensures lo <= v <= hi ==> r == v
    ensures v < lo ==> r == lo
    ensures v > hi ==> r == hi
  {
    if v < lo then lo else if v > hi then hi else v
  }

  /** The property initialisers of the two subclasses. */
  function DefaultSettings(kind: Kind): Settings
  {
    match kind
    case JpegKind => JpegSettings(85, true, true)
    case PngKind => PngSettings(PNGQUANT, 80, 3)
  }

  /** `getDefaultBinaryPath()`. */
  function DefaultBinaryPath(s: Settings): string
  {
    match s
    case JpegSettings(_, _, _) => JPEGOPTIM_BINARY
    case PngSettings(tool, _, _) => PngDefaultBinary(tool)
  }

  /** The state `__construct($binaryPath)` sets up: a truthy path is kept, otherwise the default is used. */
  function InitialConfig(kind: Kind, binaryPath: Option<string>): Config
  {
    var s := DefaultSettings(kind);
    var path := if binaryPath.Some? && !IsFalsy(binaryPath.value) then binaryPath.value else DefaultBinaryPath(s);
    Config(s, path, [], true)
  }

  /** `validateBinary()` passes. */
  predicate BinaryUsable(host: Host, path: string)
  {
    host.fileExists(path) && host.isExecutable(path)
  }

  function BinaryMissing(path: string): OptimizationException
  {
    OptimizationException("Binary not found or not executable: " + path)
  }

  // The setters, as functions on Config.

  function WithQuality(c: Config, quality: int): Config
  {
    c.(settings := c.settings.(quality := Clamp(quality, 0, 100)))
  }

  function WithStripAll(c: Config, stripAll: bool): Config
    requires c.settings.JpegSettings?
  {
    c.(settings := c.settings.(stripAll := stripAll))
  }

  function WithProgressive(c: Config, progressive: bool): Config
    requires c.settings.JpegSettings?
  {
    c.(settings := c.settings.(progressive := progressive))
  }

  function WithSpeed(c: Config, speed: int): Config
    requires c.settings.PngSettings?
  {
    c.(settings := c.settings.(speed := Clamp(speed, 1, 10)))
  }

  /** `setOptimizer`: the backend name changes and the binary path is reset to that backend's default, unvalidated. */
  function WithTool(c: Config, tool: string): Config
    requires c.settings.PngSettings?
  {
    var s := c.settings.(tool := tool);
    c.(settings := s, binaryPath := DefaultBinaryPath(s))
  }

  function WithOptions(c: Config, options: Entries<Value>): Config
  {
    c.(options := Merge(c.options, options))
  }

  function WithOverwrite(c: Config, overwrite: bool): Config
  {
    c.(overwrite := overwrite)
  }

  /**
   * The clamping setters: the stored value lies in range, equals the
   * argument when that is already in range, and nothing else changes.
   */
  lemma ClampingSetters(c: Config, quality: int, speed: int)
    requires ValidConfig(c)
    ensures var r := WithQuality(c, quality);
            && ValidConfig(r) && 0 <= r.settings.quality <= 100
            && (0 <= quality <= 100 ==> r.settings.quality == quality)
            && (quality > 100 ==> r.settings.quality == 100)
            && (quality < 0 ==> r.settings.quality == 0)
            && r == c.(settings := c.settings.(quality := r.settings.quality))
    ensures c.settings.PngSettings? ==>
            var r := WithSpeed(c, speed);
            && ValidConfig(r) && 1 <= r.settings.speed <= 10
            && (1 <= speed <= 10 ==> r.settings.speed == speed)
            && r == c.(settings := c.settings.(speed := r.settings.speed))
  {
  }

  /**
   * `setOptions` keeps the configuration valid and has `array_merge`
   * semantics: a key it mentions takes the new value in its old position,
   * new keys are appended in order, and all other keys keep their values.
   */
  lemma SetOptionsMerges(c: Config, options: Entries<Value>)
    requires ValidConfig(c) && DistinctKeys(options)
    ensures var r := WithOptions(c, options);
            && ValidConfig(r)
            && r.settings == c.settings && r.binaryPath == c.binaryPath && r.overwrite == c.overwrite
            && Keys(r.options) == Keys(c.options) + Unseen(Keys(c.options), Keys(options))
            && (forall k :: k in Keys(options) ==> Get(r.options, k) == Get(options, k))
            && (forall k :: k !in Keys(options) ==> Get(r.options, k) == Get(c.options, k))
  {
    MergeDistinct(c.options, options);
    MergeKeys(c.options, options);
    forall k ensures Get(Merge(c.options, options), k) == if k in Keys(options) then Get(options, k) else Get(c.options, k) {
      MergeGet(c.options, options, k);
    }
  }

  /**
   * `setOptimizer(n)` makes the binary path the default of `n` (pngquant's for
   * an unknown name) and keeps quality, speed and options.
   */
  lemma SetOptimizerResetsBinary(c: Config, tool: string)
    requires ValidConfig(c) && c.settings.PngSettings?
    ensures var r := WithTool(c, tool);
            && ValidConfig(r)
            && r.settings == PngSettings(tool, c.settings.quality, c.settings.speed)
            && r.binaryPath == PngDefaultBinary(tool)
            && (!KnownTool(tool) ==> r.binaryPath == "/usr/bin/pngquant")
            && r.options == c.options && r.overwrite == c.overwrite
  {
  }

  /** `getCommand`: the backend's argument vector, or the unhandled match of an unknown PNG backend. */
  function CommandFor(c: Config, source: string, destination: string): Result<seq<string>, Failure>
  {
    match c.settings
    case JpegSettings(quality, stripAll, progressive) =>
      Ok(JpegArgv(c.binaryPath, quality, stripAll, progressive, c.options, c.overwrite, source, destination))
    case PngSettings(tool, quality, speed) =>
      PngArgv(tool, c.binaryPath, quality, speed, c.options, source, destination)
  }

  /** `$destinationPath ?: ($this->overwrite ? $sourcePath : tempnam(...))`. */
  function EffectiveDestination(given: Option<string>, overwrite: bool, source: string, temp: string): string
  {
    if given.Some? && !IsFalsy(given.value) then given.value
    else if overwrite then source
    else temp
  }

  /** `getOptimizedSize()`: the optimized size when non-zero, otherwise the original size. */
  function ReportedSize(originalSize: nat, optimizedSize: nat): nat
  {
    if optimizedSize != 0 then optimizedSize else originalSize
  }

  /** `getCompressionRatio()`, in exact arithmetic. */
  function CompressionRatio(originalSize: nat, optimizedSize: nat): (r: real)
    ensures originalSize == 0 ==> r == 0.0
    ensures originalSize > 0 ==> r * originalSize as real == (originalSize - optimizedSize) as real
    ensures r <= 1.0
    ensures optimizedSize <= originalSize ==> 0.0 <= r
  {
    if originalSize == 0 then 0.0
    else 1.0 - optimizedSize as real / originalSize as real
  }

  /** The OptimizationException that wraps a ProcessFailedException. */
  function ProcessFailure(command: seq<string>, p: ProcessOutcome): OptimizationException
  {
    OptimizationException(
      "Optimization failed: " + p.failureMessage,
      Join(" ", command),
      if IsFalsy(p.output) then [] else Split(p.output, '\n'))
  }

  /** What `optimize` returns or throws, the optimized size it leaves, and the path it renames over the source. */
  datatype RunReport = RunReport(outcome: Result<bool, Failure>, optimizedSize: nat, renamed: Option<string>)

  /** The run protocol of `optimize`, from the configuration and the optimized size before the call. */
  function Run(c: Config, previousSize: nat, host: Host, source: string, given: Option<string>): RunReport
  {
    var destination := EffectiveDestination(given, c.overwrite, source, host.tempName);
    match CommandFor(c, source, destination)
    case Err(f) => RunReport(Err(f), previousSize, None)
    case Ok(command) =>
      var p := host.run(command);
      if !p.successful then RunReport(Err(Optimization(ProcessFailure(command, p))), previousSize, None)
      else RunReport(Ok(true), p.producedSize, if destination != source && c.overwrite then Some(destination) else None)
  }

  /**
   * The effective destination is the given one when truthy, else the source
   * when overwriting, else the temporary path; a rename over the source
   * happens only for an explicit destination different from the source
   * while overwrite is on.
   */
  lemma DestinationChoice(c: Config, previousSize: nat, host: Host, source: string, given: Option<string>)
    ensures var d := EffectiveDestination(given, c.overwrite, source, host.tempName);
            && (given.Some? && !IsFalsy(given.value) ==> d == given.value)
            && ((given.None? || IsFalsy(given.value)) && c.overwrite ==> d == source)
            && ((given.None? || IsFalsy(given.value)) && !c.overwrite ==> d == host.tempName)
    ensures var rep := Run(c, previousSize, host, source, given);
            rep.renamed.Some? ==> c.overwrite && given.Some? && !IsFalsy(given.value) && given.value != source
                                  && rep.renamed.value == given.value
  {
  }

  /**
   * A failed process raises an OptimizationException whose command is the
   * argument vector joined with spaces and whose output lines join back to
   * the captured output (none when it is falsy); the optimized size stays
   * as it was and nothing is renamed.
   */
  lemma RunFailure(c: Config, previousSize: nat, host: Host, source: string, given: Option<string>)
    requires var d := EffectiveDestination(given, c.overwrite, source, host.tempName);
             CommandFor(c, source, d).Ok? && !host.run(CommandFor(c, source, d).value).successful
    ensures var d := EffectiveDestination(given, c.overwrite, source, host.tempName);
            var command := CommandFor(c, source, d).value;
            var out := host.run(command).output;
            var rep := Run(c, previousSize, host, source, given);
            && rep.outcome.Err? && rep.outcome.error.Optimization?
            && rep.outcome.error.exception.command == Join(" ", command)
            && (IsFalsy(out) ==> rep.outcome.error.exception.output == [])
            && (!IsFalsy(out) ==> Join("\n", rep.outcome.error.exception.output) == out)
            && rep.optimizedSize == previousSize && rep.renamed == None
  {
    var d := EffectiveDestination(given, c.overwrite, source, host.tempName);
    var out := host.run(CommandFor(c, source, d).value).output;
    JoinSplit(out, '\n');
  }

  /**
   * A command that can be built and whose process succeeds makes `optimize`
   * return true and record the size of the destination; in the model, the
   * only failure besides a failed process is an unknown PNG backend (a run
   * that throws, such as a process timeout, is not modelled).
   */
  lemma RunSuccess(c: Config, previousSize: nat, host: Host, source: string, given: Option<string>)
    ensures var d := EffectiveDestination(given, c.overwrite, source, host.tempName);
            var rep := Run(c, previousSize, host, source, given);
            && (rep.outcome.Ok? ==>
                  (&& rep.outcome.value
                   && rep.optimizedSize == host.run(CommandFor(c, source, d).value).producedSize
                   && (rep.renamed.Some? <==> d != source && c.overwrite)))
            && (rep.outcome.Err? && !rep.outcome.error.Optimization? ==>
                  (&& c.settings.PngSettings? && !KnownTool(c.settings.tool)
                   && rep.outcome.error == UnhandledMatch(c.settings.tool)))
    ensures var d := EffectiveDestination(given, c.overwrite, source, host.tempName);
            CommandFor(c, source, d).Ok? && host.run(CommandFor(c, source, d).value).successful ==>
              Run(c, previousSize, host, source, given).outcome == Ok(true)
  {
  }

  class Optimizer {
    var settings: Settings
    var binaryPath: string
    var options: Entries<Value>
    var sourcePath: string
    var originalSize: nat
    var optimizedSize: nat
    var overwrite: bool

    function Configuration(): Config
      reads this
    {
      Config(settings, binaryPath, options, overwrite)
    }

    ghost predicate Valid()
      reads this
    {
      ValidConfig(Configuration())
    }

    /** The object `new JpegOptimizer($binaryPath)` or `new PngOptimizer($binaryPath)` builds, before validation. */
    constructor (kind: Kind, binary: Option<string>)
      ensures Configuration() == InitialConfig(kind, binary) && Valid()
      ensures sourcePath == "" && originalSize == 0 && optimizedSize == 0
    {
      var c := InitialConfig(kind, binary);
      settings := c.settings;
      binaryPath := c.binaryPath;
      options := [];
      overwrite := true;
      sourcePath := "";
      originalSize := 0;
      optimizedSize := 0;
    }

    /** Construction with `validateBinary()`: fails when the binary is missing or not executable. */
    static method Create(kind: Kind, binary: Option<string>, host: Host) returns (r: Result<Optimizer, Failure>)
      ensures var path := InitialConfig(kind, binary).binaryPath;
              && (r.Err? <==> !BinaryUsable(host, path))
              && (r.Err? ==> r.error == Optimization(BinaryMissing(path)))
      ensures r.Ok? ==> && fresh(r.value) && r.value.Valid()
                        && r.value.Configuration() == InitialConfig(kind, binary)
                        && r.value.originalSize == 0 && r.value.optimizedSize == 0
    {
      var o := new Optimizer(kind, binary);
      if !(host.fileExists(o.binaryPath) && host.isExecutable(o.binaryPath)) {
        r := Err(Optimization(BinaryMissing(o.binaryPath)));
      } else {
        r := Ok(o);
      }
    }

    method SetQuality(quality: int)
      modifies this
      ensures Configuration() == WithQuality(old(Configuration()), quality)
      ensures sourcePath == old(sourcePath) && originalSize == old(originalSize) && optimizedSize == old(optimizedSize)
      ensures old(Valid()) ==> Valid()
    {
      settings := settings.(quality := Clamp(quality, 0, 100));
    }

    method SetStripAll(stripAll: bool)
      requires settings.JpegSettings?
      modifies this
      ensures Configuration() == WithStripAll(old(Configuration()), stripAll)
      ensures sourcePath == old(sourcePath) && originalSize == old(originalSize) && optimizedSize == old(optimizedSize)
      ensures old(Valid()) ==> Valid()
    {
      settings := settings.(stripAll := stripAll);
    }

    method SetProgressive(progressive: bool)
      requires settings.JpegSettings?
      modifies this
      ensures Configuration() == WithProgressive(old(Configuration()), progressive)
      ensures sourcePath == old(sourcePath) && originalSize == old(originalSize) && optimizedSize == old(optimizedSize)
      ensures old(Valid()) ==> Valid()
    {
      settings := settings.(progressive := progressive);
    }

    method SetSpeed(speed: int)
      requires settings.PngSettings?
      modifies this
      ensures Configuration() == WithSpeed(old(Configuration()), speed)
      ensures sourcePath == old(sourcePath) && originalSize == old(originalSize) && optimizedSize == old(optimizedSize)
      ensures old(Valid()) ==> Valid()
    {
      settings := settings.(speed := Clamp(speed, 1, 10));
    }

    method SetOptimizer(tool: string)
      requires settings.PngSettings?
      modifies this
      ensures Configuration() == WithTool(old(Configuration()), tool)
      ensures sourcePath == old(sourcePath) && originalSize == old(originalSize) && optimizedSize == old(optimizedSize)
      ensures old(Valid()) ==> Valid()
    {
      settings := settings.(tool := tool);
      binaryPath := PngDefaultBinary(tool);
    }

    method SetOptions(newOptions: Entries<Value>)
      requires DistinctKeys(newOptions)
      modifies this
      ensures Configuration() == WithOptions(old(Configuration()), newOptions)
      ensures sourcePath == old(sourcePath) && originalSize == old(originalSize) && optimizedSize == old(optimizedSize)
      ensures old(Valid()) ==> Valid()
    {
      ghost var wasValid := Valid();
      if wasValid {
        MergeDistinct(options, newOptions);
      }
      options := Merge(options, newOptions);
    }

    method SetOverwrite(overwrite': bool)
      modifies this
      ensures Configuration() == WithOverwrite(old(Configuration()), overwrite')
      ensures sourcePath == old(sourcePath) && originalSize == old(originalSize) && optimizedSize == old(optimizedSize)
      ensures old(Valid()) ==> Valid()
    {
      overwrite := overwrite';
    }

    /** `getOptimizedSize()`. */
    function GetOptimizedSize(): nat
      reads this
    {
      ReportedSize(originalSize, optimizedSize)
    }

    /** `getCompressionRatio()`. */
    function GetCompressionRatio(): real
      reads this
    {
      CompressionRatio(originalSize, optimizedSize)
    }

    /** Appends the long form of every option, in array order. */
    method AppendLongOptions(head: seq<string>) returns (command: seq<string>)
      ensures command == head + LongOptions(options)
    {
      command := head;
      var i := 0;
      while i < |options|
        invariant 0 <= i <= |options|
        invariant command == head + LongOptions(options[..i])
      {
        var name, value := options[i].0, options[i].1;
        if value.VBool? {
          if value.b {
            command := command + ["--" + name];
          }
        } else {
          command := command + ["--" + name + "=" + ToPhpString(value)];
        }
        assert options[..i + 1][..i] == options[..i];
        i := i + 1;
      }
      assert options[..i] == options;
    }

    /** Appends the short form of every option, in array order. */
    method AppendShortOptions(head: seq<string>) returns (command: seq<string>)
      ensures command == head + ShortOptions(options)
    {
      command := head;
      var i := 0;
      while i < |options|
        invariant 0 <= i <= |options|
        invariant command == head + ShortOptions(options[..i])
      {
        command := command + ["-" + options[i].0 + ToPhpString(options[i].1)];
        assert options[..i + 1][..i] == options[..i];
        i := i + 1;
      }
      assert options[..i] == options;
    }

    /** JpegOptimizer's `getCommand`. */
    method JpegCommand(source: string, destination: string) returns (command: seq<string>)
      requires settings.JpegSettings?
      ensures command == JpegArgv(binaryPath, settings.quality, settings.stripAll, settings.progressive,
                                  options, overwrite, source, destination)
    {
      command := [binaryPath];
      if settings.quality != 0 {
        command := command + ["--max=" + IntToString(settings.quality)];
      }
      if settings.stripAll {
        command := command + ["--strip-all"];
      }
      if settings.progressive {
        command := command + ["--all-progressive"];
      }
      ghost var flags := JpegFlags(settings.quality, settings.stripAll, settings.progressive);
      assert command == [binaryPath] + flags;
      command := AppendLongOptions(command);
      ghost var body := command;
      command := command + [source];
      if !overwrite && source != destination {
        command := command + ["--dest=" + DirName(destination)];
      }
      assert command == body + JpegTail(overwrite, source, destination);
    }

    /** `getPngquantCommand`. */
    method PngquantCommand(source: string, destination: string) returns (command: seq<string>)
      requires settings.PngSettings?
      ensures command == PngquantArgv(binaryPath, settings.quality, settings.speed, options, source, destination)
    {
      command := [binaryPath];
      if settings.quality != 0 {
        command := command + ["--quality=" + IntToString(settings.quality)];
      }
      if settings.speed != 0 {
        command := command + ["--speed=" + IntToString(settings.speed)];
      }
      command := AppendLongOptions(command);
      command := command + ["--output=" + destination];
      command := command + [source];
    }

    /** `getOptipngCommand`. */
    method OptipngCommand(source: string, destination: string) returns (command: seq<string>)
      ensures command == OptipngArgv(binaryPath, options, source, destination)
    {
      command := AppendShortOptions([binaryPath, "-o2", "-strip", "all"]);
      command := command + ["-out=" + destination];
      command := command + [source];
    }

    /** `getPngcrushCommand`. */
    method PngcrushCommand(source: string, destination: string) returns (command: seq<string>)
      ensures command == PngcrushArgv(binaryPath, options, source, destination)
    {
      command := AppendShortOptions([binaryPath]);
      command := command + [source];
      command := command + [destination];
    }

    /** `getCommand` of either subclass. */
    method GetCommand(source: string, destination: string) returns (r: Result<seq<string>, Failure>)
      ensures r == CommandFor(Configuration(), source, destination)
    {
      match settings
      case JpegSettings(_, _, _) =>
        var command := JpegCommand(source, destination);
        r := Ok(command);
      case PngSettings(tool, _, _) =>
        if tool == PNGQUANT {
          var command := PngquantCommand(source, destination);
          r := Ok(command);
        } else if tool == OPTIPNG {
          var command := OptipngCommand(source, destination);
          r := Ok(command);
        } else if tool == PNGCRUSH {
          var command := PngcrushCommand(source, destination);
          r := Ok(command);
        } else {
          r := Err(UnhandledMatch(tool));
        }
    }

    /**
     * `optimize($sourcePath, $destinationPath)`: records the source and its
     * size, runs the backend and, on success, records the destination's size;
     * `renamed` is the path moved over the source, if any.
     */
    method Optimize(host: Host, source: string, given: Option<string>) returns (r: Result<bool, Failure>, renamed: Option<string>)
      modifies this
      ensures Configuration() == old(Configuration())
      ensures sourcePath == source && originalSize == host.fileSize(source)
      ensures var report := Run(old(Configuration()), old(optimizedSize), host, source, given);
              r == report.outcome && optimizedSize == report.optimizedSize && renamed == report.renamed
    {
      sourcePath := source;
      originalSize := host.fileSize(source);
      var destination := if given.Some? && !IsFalsy(given.value) then given.value
                         else if overwrite then source else host.tempName;
      renamed := None;
      var command := GetCommand(source, destination);
      if command.Err? {
        r := Err(command.error);
        return;
      }
      var process := host.run(command.value);
      if !process.successful {
        r := Err(Optimization(ProcessFailure(command.value, process)));
        return;
      }
      optimizedSize := process.producedSize;
      if destination != source && overwrite {
        renamed := Some(destination);
      }
      r := Ok(true);
    }
  }
}
