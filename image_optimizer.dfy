/**
 * The ImageOptimizer facade: the two-level default configuration, the
 * choice of backend from the extension and MIME type, the per-call options,
 * and the single and batch optimizations that turn each attempt into an
 * OptimizationResult.
 */
module ImageOptimizers {
  import opened Wrappers
  import opened PhpStrings
  import opened PhpArrays
  import opened PhpValues
  import opened Errors
  import opened PngCommands
  import opened Environment
  import opened Optimizers
  import opened Results

  const JPEG_OPTIMIZER_CLASS := "CoderDen\\ImageOptimizer\\Optimizers\\JpegOptimizer"
  const PNG_OPTIMIZER_CLASS := "CoderDen\\ImageOptimizer\\Optimizers\\PngOptimizer"

  /** The backend a configuration belongs to: `instanceof JpegOptimizer` or `instanceof PngOptimizer`. */
  function KindOf(c: Config): Kind
  {
    if c.settings.JpegSettings? then JpegKind else PngKind
  }

  /** `get_class($optimizer)`. */
  function ClassName(kind: Kind): string
  {
    match kind
    case JpegKind => JPEG_OPTIMIZER_CLASS
    case PngKind => PNG_OPTIMIZER_CLASS
  }

  /** The key of a backend's section in the configuration. */
  function SectionName(kind: Kind): string
  {
    match kind
    case JpegKind => "jpeg"
    case PngKind => "png"
  }

  /** The built-in section of each backend. */
  function DefaultSection(kind: Kind): Entries<Value>
  {
    match kind
    case JpegKind => [("quality", VInt(85)), ("strip_all", VBool(true)), ("progressive", VBool(true))]
    case PngKind => [("optimizer", VString(PNGQUANT)), ("quality", VInt(80)), ("speed", VInt(3))]
  }

  /** The `$defaultConfig` property initialiser. */
  function DefaultConfig(): Entries<Value>
  {
    [("jpeg", VArray(DefaultSection(JpegKind))), ("png", VArray(DefaultSection(PngKind)))]
  }

  // Choosing the backend.

  /** `strtolower(pathinfo($imagePath, PATHINFO_EXTENSION))`. */
  function ImageExtension(path: string): string
  {
    ToLower(PathExtension(path))
  }

  /** The `match(true)` of `getOptimizerForImage`: the JPEG arm is tried first. */
  function DetectKind(extension: string, mime: string): Option<Kind>
  {
    if extension == "jpg" || extension == "jpeg" || Contains(mime, "jpeg") then Some(JpegKind)
    else if extension == "png" || Contains(mime, "png") then Some(PngKind)
    else None
  }

  function UnsupportedType(extension: string, mime: string): OptimizationException
  {
    OptimizationException("Unsupported image type: " + extension + " (" + mime + ")")
  }

  // Creating a configured optimizer.

  /** `$this->defaultConfig[$name] ?? []`, read as an array; a scalar section has no entries. */
  function Section(config: Entries<Value>, name: string): Entries<Value>
  {
    match Lookup(config, name)
    case Some(VArray(es)) => es
    case _ => []
  }

  /** `$section[$key] ?? $fallback`. */
  function Setting(section: Entries<Value>, key: string, fallback: Value): Value
  {
    Lookup(section, key).GetOr(fallback)
  }

  /** The extra options a fresh optimizer holds after its section is applied: the `options` entry when it is an array. */
  function SectionExtraOptions(section: Entries<Value>): Entries<Value>
  {
    if Lookup(section, "options").Some? && Lookup(section, "options").value.VArray?
    then Merge([], Lookup(section, "options").value.entries)
    else []
  }

  /** `setOptions($section['options'])` when that entry is an array. */
  function WithSectionOptions(c: Config, section: Entries<Value>): Config
  {
    match Lookup(section, "options")
    case Some(VArray(extra)) => WithOptions(c, extra)
    case _ => c
  }

  /**
   * The setter chain of `createJpegOptimizer` or `createPngOptimizer` over
   * the fresh optimizer, each argument coerced to the setter's parameter type.
   */
  function Configure(kind: Kind, section: Entries<Value>): (r: Result<Config, Failure>)
    ensures r.Ok? ==> KindOf(r.value) == kind && r.value.overwrite
    ensures r.Ok? && WellFormedEntries(section) ==> ValidConfig(r.value)
    ensures r.Err? ==> r.error.TypeError?
  {
    var c := InitialConfig(kind, None);
    match kind
    case JpegKind =>
      var quality :- CoerceInt("quality", Setting(section, "quality", VInt(85)));
      var stripAll :- CoerceBool("stripAll", Setting(section, "strip_all", VBool(true)));
      var progressive :- CoerceBool("progressive", Setting(section, "progressive", VBool(true)));
      var r := WithSectionOptions(WithProgressive(WithStripAll(WithQuality(c, quality), stripAll), progressive), section);
      SectionOptionsValid(WithProgressive(WithStripAll(WithQuality(c, quality), stripAll), progressive), section);
      Ok(r)
    case PngKind =>
      var tool :- CoerceString("optimizer", Setting(section, "optimizer", VString(PNGQUANT)));
      var quality :- CoerceInt("quality", Setting(section, "quality", VInt(80)));
      var speed :- CoerceInt("speed", Setting(section, "speed", VInt(3)));
      SectionOptionsValid(WithSpeed(WithQuality(WithTool(c, tool), quality), speed), section);
      Ok(WithSectionOptions(WithSpeed(WithQuality(WithTool(c, tool), quality), speed), section))
  }

  /**
   * `createJpegOptimizer()` / `createPngOptimizer()`: the constructor
   * validates the backend's default binary (pngquant for every PNG
   * optimizer, whatever backend the configuration names), then the section
   * is applied.
   */
  function CreateSpec(host: Host, config: Entries<Value>, kind: Kind): (r: Result<Config, Failure>)
    ensures r.Ok? ==> KindOf(r.value) == kind && r.value.overwrite
    ensures var path := DefaultBinaryPath(DefaultSettings(kind));
            && (r.Err? && r.error.Optimization? <==> !BinaryUsable(host, path))
            && (!BinaryUsable(host, path) ==> r == Err(Optimization(BinaryMissing(path))))
            && (r.Err? && !r.error.Optimization? ==> r.error.TypeError?)
  {
    var path := InitialConfig(kind, None).binaryPath;
    if !BinaryUsable(host, path) then Err(Optimization(BinaryMissing(path)))
    else Configure(kind, Section(config, SectionName(kind)))
  }

  /** `getOptimizerForImage($imagePath)`. */
  function OptimizerFor(host: Host, config: Entries<Value>, path: string): (r: Result<Config, Failure>)
    ensures r.Ok? ==> && DetectKind(ImageExtension(path), host.mimeType(path)).Some?
                      && KindOf(r.value) == DetectKind(ImageExtension(path), host.mimeType(path)).value
                      && r.value.overwrite
  {
    var extension := ImageExtension(path);
    var mime := host.mimeType(path);
    match DetectKind(extension, mime)
    case None => Err(Optimization(UnsupportedType(extension, mime)))
    case Some(kind) => CreateSpec(host, config, kind)
  }

  // Per-call options.

  /** The option keys `applyOptions` looks at, in order. */
  function RecognisedKeys(kind: Kind): seq<string>
  {
    match kind
    case JpegKind => ["quality", "stripAll", "progressive"]
    case PngKind => ["quality", "speed", "optimizer"]
  }

  /** `$optimizer->{'set' . ucfirst($key)}($value)`. */
  function ApplyOption(c: Config, key: string, v: Value): (r: Result<Config, Failure>)
    requires key in RecognisedKeys(KindOf(c))
    ensures r.Ok? ==> KindOf(r.value) == KindOf(c) && r.value.options == c.options && r.value.overwrite == c.overwrite
    ensures r.Ok? && ValidConfig(c) ==> ValidConfig(r.value)
    ensures r.Err? ==> r.error == TypeError(key)
    ensures r.Ok? && key != "quality" ==> r.value.settings.quality == c.settings.quality
    ensures key == "quality" ==>
              && (r.Ok? <==> CoerceInt(key, v).Ok?)
              && (r.Ok? ==> r.value == c.(settings := c.settings.(quality := Clamp(CoerceInt(key, v).value, 0, 100))))
    ensures key == "stripAll" ==>
              && (r.Ok? <==> CoerceBool(key, v).Ok?)
              && (r.Ok? ==> r.value == c.(settings := c.settings.(stripAll := CoerceBool(key, v).value)))
    ensures key == "progressive" ==>
              && (r.Ok? <==> CoerceBool(key, v).Ok?)
              && (r.Ok? ==> r.value == c.(settings := c.settings.(progressive := CoerceBool(key, v).value)))
    ensures key == "speed" ==>
              && (r.Ok? <==> CoerceInt(key, v).Ok?)
              && (r.Ok? ==> r.value == c.(settings := c.settings.(speed := Clamp(CoerceInt(key, v).value, 1, 10))))
    ensures key == "optimizer" ==>
              && (r.Ok? <==> CoerceString(key, v).Ok?)
              && (r.Ok? ==> r.value == c.(settings := c.settings.(tool := CoerceString(key, v).value),
                                          binaryPath := PngDefaultBinary(CoerceString(key, v).value)))
  {
    if key == "quality" then
      var quality :- CoerceInt("quality", v);
      Ok(WithQuality(c, quality))
    else if key == "stripAll" then
      var stripAll :- CoerceBool("stripAll", v);
      Ok(WithStripAll(c, stripAll))
    else if key == "progressive" then
      var progressive :- CoerceBool("progressive", v);
      Ok(WithProgressive(c, progressive))
    else if key == "speed" then
      var speed :- CoerceInt("speed", v);
      Ok(WithSpeed(c, speed))
    else
      var tool :- CoerceString("optimizer", v);
      Ok(WithTool(c, tool))
  }

  /** The loop of `applyOptions` over the first keys of the list: a key that is not set is skipped. */
  function ApplyKeys(c: Config, options: Entries<Value>, keys: seq<string>): (r: Result<Config, Failure>)
    requires forall k :: k in keys ==> k in RecognisedKeys(KindOf(c))
    ensures r.Ok? ==> KindOf(r.value) == KindOf(c) && r.value.options == c.options && r.value.overwrite == c.overwrite
    ensures r.Ok? && ValidConfig(c) ==> ValidConfig(r.value)
    ensures r.Err? ==> r.error.TypeError?
    decreases |keys|
  {
    if keys == [] then Ok(c)
    else
      var previous :- ApplyKeys(c, options, keys[..|keys| - 1]);
      var key := keys[|keys| - 1];
      match Lookup(options, key)
      case None => Ok(previous)
      case Some(v) => ApplyOption(previous, key, v)
  }

  /** `applyOptions($optimizer, $options)`. */
  function ApplyOptionsSpec(c: Config, options: Entries<Value>): Result<Config, Failure>
  {
    ApplyKeys(c, options, RecognisedKeys(KindOf(c)))
  }

  // Optimizing.

  /** The optimizer `optimize` runs: chosen and created, then given the call options unless they are empty. */
  function Prepared(host: Host, config: Entries<Value>, path: string, options: Entries<Value>): (r: Result<Config, Failure>)
    ensures r.Ok? ==> && DetectKind(ImageExtension(path), host.mimeType(path)).Some?
                      && KindOf(r.value) == DetectKind(ImageExtension(path), host.mimeType(path)).value
                      && r.value.overwrite
  {
    var c :- OptimizerFor(host, config, path);
    if options != [] then ApplyOptionsSpec(c, options) else Ok(c)
  }

  /** Running a prepared optimizer on the image and recording the outcome in a result. */
  function Attempt(c: Config, host: Host, path: string, destination: Option<string>): (r: Result<OptimizationResult, Failure>)
    ensures r.Ok? ==> && r.value.success && r.value.error == None
                      && r.value.sourcePath == path && r.value.destinationPath == destination
                      && r.value.originalSize == host.fileSize(path)
                      && r.value.optimizerClass == Some(ClassName(KindOf(c)))
    ensures r.Err? <==> Run(c, 0, host, path, destination).outcome.Err?
    ensures r.Err? ==> r.error == Run(c, 0, host, path, destination).outcome.error
  {
    var originalSize := host.fileSize(path);
    var report := Run(c, 0, host, path, destination);
    var success :- report.outcome;
    Ok(OptimizationResult(
      success, path, destination, originalSize,
      ReportedSize(originalSize, report.optimizedSize),
      CompressionRatio(originalSize, report.optimizedSize),
      Some(ClassName(KindOf(c)))))
  }

  /** `optimize($imagePath, $destinationPath, $options)`. */
  function OptimizeSpec(host: Host, config: Entries<Value>, path: string, destination: Option<string>,
                        options: Entries<Value>): (r: Result<OptimizationResult, Failure>)
    ensures r.Ok? ==> && r.value.success && r.value.error == None
                      && r.value.sourcePath == path && r.value.destinationPath == destination
                      && r.value.originalSize == host.fileSize(path)
                      && DetectKind(ImageExtension(path), host.mimeType(path)).Some?
                      && r.value.optimizerClass == Some(ClassName(DetectKind(ImageExtension(path), host.mimeType(path)).value))
  {
    var c :- Prepared(host, config, path, options);
    Attempt(c, host, path, destination)
  }

  /** The result `batchOptimize` records for an image whose optimization raised an OptimizationException. */
  function FailedResult(path: string, size: nat, message: string): OptimizationResult
  {
    OptimizationResult(false, path, None, size, size, 0.0, None, Some(message))
  }

  /** One iteration of `batchOptimize`: only an OptimizationException is caught. */
  function BatchEntry(host: Host, config: Entries<Value>, path: string, options: Entries<Value>): Result<OptimizationResult, Failure>
  {
    match OptimizeSpec(host, config, path, None, options)
    case Ok(r) => Ok(r)
    case Err(Optimization(e)) => Ok(FailedResult(path, host.fileSize(path), e.message))
    case Err(f) => Err(f)
  }

  /** The results of `f` over `xs`, in order, until the first failure, which is the outcome. */
  function Collect<T, R, E>(xs: seq<T>, f: T -> Result<R, E>): Result<seq<R>, E>
    decreases |xs|
  {
    if xs == [] then Ok([])
    else
      var previous :- Collect(xs[..|xs| - 1], f);
      var last :- f(xs[|xs| - 1]);
      Ok(previous + [last])
  }

  /** The entry of each path under one configuration and one set of call options. */
  function BatchEntries(host: Host, config: Entries<Value>, options: Entries<Value>): string -> Result<OptimizationResult, Failure>
  {
    p => BatchEntry(host, config, p, options)
  }

  /** `batchOptimize($imagePaths, $options)`: the entries in order until one escapes. */
  function BatchSpec(host: Host, config: Entries<Value>, paths: seq<string>, options: Entries<Value>): Result<seq<OptimizationResult>, Failure>
  {
    Collect(paths, BatchEntries(host, config, options))
  }

  // Helper lemmas for well-formedness.

  lemma GetWellFormed(m: Entries<Value>, k: string)
    requires WellFormedEntries(m) && Get(m, k).Some?
    ensures WellFormed(Get(m, k).value)
  {
    var i := IndexOf(m, k).value;
    assert Get(m, k).value == m[i].1;
  }

  lemma SectionOptionsValid(c: Config, section: Entries<Value>)
    ensures KindOf(WithSectionOptions(c, section)) == KindOf(c)
    ensures WithSectionOptions(c, section).overwrite == c.overwrite
    ensures ValidConfig(c) && WellFormedEntries(section) ==> ValidConfig(WithSectionOptions(c, section))
  {
    match Lookup(section, "options")
    case Some(VArray(extra)) =>
      if ValidConfig(c) && WellFormedEntries(section) {
        GetWellFormed(section, "options");
        MergeDistinct(c.options, extra);
      }
    case _ =>
  }

  lemma SectionWellFormed(config: Entries<Value>, name: string)
    requires WellFormedEntries(config)
    ensures WellFormedEntries(Section(config, name))
  {
    if Lookup(config, name).Some? {
      GetWellFormed(config, name);
    }
  }

  /** `array_merge` of two PHP arrays is again one, with every nested array intact. */
  lemma MergeWellFormed(m: Entries<Value>, n: Entries<Value>)
    requires WellFormedEntries(m) && WellFormedEntries(n)
    ensures WellFormedEntries(Merge(m, n))
  {
    var r := Merge(m, n);
    MergeDistinct(m, n);
    forall i | 0 <= i < |r|
      ensures WellFormed(r[i].1)
    {
      GetAt(r, i);
      MergeGet(m, n, r[i].0);
      if r[i].0 in Keys(n) {
        GetWellFormed(n, r[i].0);
      } else {
        GetWellFormed(m, r[i].0);
      }
    }
  }

  // What is promised about the facade.

  /**
   * The JPEG arm wins whenever the extension is jpg or jpeg or "jpeg" occurs
   * in the MIME type; the PNG arm applies only otherwise, when the extension
   * is png or "png" occurs in the MIME type; every other image is rejected.
   */
  lemma DispatchRule(extension: string, mime: string)
    ensures var jpeg := extension == "jpg" || extension == "jpeg" || exists i :: OccursAt(mime, "jpeg", i);
            var png := extension == "png" || exists i :: OccursAt(mime, "png", i);
            && (DetectKind(extension, mime) == Some(JpegKind) <==> jpeg)
            && (DetectKind(extension, mime) == Some(PngKind) <==> !jpeg && png)
            && (DetectKind(extension, mime) == None <==> !jpeg && !png)
  {
    ContainsIffOccurs(mime, "jpeg");
    ContainsIffOccurs(mime, "png");
  }

  /** An unsupported image raises before any optimizer is created, and a batch records it as a failed entry. */
  lemma UnsupportedImage(host: Host, config: Entries<Value>, path: string, options: Entries<Value>)
    requires DetectKind(ImageExtension(path), host.mimeType(path)).None?
    ensures var e := UnsupportedType(ImageExtension(path), host.mimeType(path));
            && OptimizeSpec(host, config, path, None, options) == Err(Optimization(e))
            && BatchEntry(host, config, path, options) == Ok(FailedResult(path, host.fileSize(path), e.message))
  {
  }

  lemma GifNotDetected()
    ensures DetectKind("gif", "image/gif") == None
  {
    MissingFirstChar("image/gif", "jpeg");
    MissingFirstChar("image/gif", "png");
  }

  lemma GifMessage()
    ensures UnsupportedType("gif", "image/gif").message == "Unsupported image type: gif (image/gif)"
  {
    var message := "Unsupported image type: " + "gif" + " (" + "image/gif" + ")";
    assert message == "Unsupported image type: gif (image/gif)";
  }

  /** A GIF named by extension and MIME type is refused with the message that names both. */
  lemma GifIsUnsupported(host: Host, config: Entries<Value>, path: string, options: Entries<Value>)
    requires ImageExtension(path) == "gif" && host.mimeType(path) == "image/gif"
    ensures BatchEntry(host, config, path, options)
         == Ok(FailedResult(path, host.fileSize(path), "Unsupported image type: gif (image/gif)"))
  {
    GifNotDetected();
    GifMessage();
    UnsupportedImage(host, config, path, options);
  }

  /**
   * A user section replaces the built-in section of the same name as a
   * whole (the merge is shallow); a section the user leaves out stays built in.
   */
  lemma ShallowConfigMerge(config: Entries<Value>, kind: Kind)
    requires WellFormedEntries(config)
    ensures var name := SectionName(kind);
            Section(Merge(DefaultConfig(), config), name)
              == if name in Keys(config) then Section(config, name) else DefaultSection(kind)
  {
    var name := SectionName(kind);
    var d := DefaultConfig();
    assert DistinctKeys(d) by {
      assert Keys(d) == ["jpeg", "png"];
    }
    MergeGet(d, config, name);
    if name !in Keys(config) {
      if kind == JpegKind {
        GetAt(d, 0);
      } else {
        GetAt(d, 1);
      }
    } else {
      assert Get(Merge(d, config), name) == Get(config, name);
    }
  }

  /** With an empty section every setting takes the fallback written in `createJpegOptimizer` or `createPngOptimizer`. */
  lemma ConfigureDefaults()
    ensures Configure(JpegKind, []) == Ok(Config(JpegSettings(85, true, true), "/usr/bin/jpegoptim", [], true))
    ensures Configure(PngKind, []) == Ok(Config(PngSettings("pngquant", 80, 3), "/usr/bin/pngquant", [], true))
  {
  }

  /**
   * What `createJpegOptimizer` stores: it succeeds exactly when every set key
   * is accepted by its setter; quality is the section's, clamped, or 85;
   * strip_all and progressive are the section's or true; an `options` array
   * becomes the extra options.
   */
  lemma ConfigureJpeg(section: Entries<Value>)
    ensures var r := Configure(JpegKind, section);
            && (r.Ok? <==> && (Lookup(section, "quality").None? || IntArgument(section, "quality").Some?)
                           && (Lookup(section, "strip_all").None? || BoolArgument(section, "strip_all").Some?)
                           && (Lookup(section, "progressive").None? || BoolArgument(section, "progressive").Some?))
            && (r.Ok? ==>
                  && r.value.settings == JpegSettings(Clamp(IntArgument(section, "quality").GetOr(85), 0, 100),
                                                      BoolArgument(section, "strip_all").GetOr(true),
                                                      BoolArgument(section, "progressive").GetOr(true))
                  && r.value.binaryPath == "/usr/bin/jpegoptim" && r.value.overwrite
                  && r.value.options == SectionExtraOptions(section))
  {
    SettingAsInt(section, "quality", "quality", 85);
    SettingAsBool(section, "strip_all", "stripAll", true);
    SettingAsBool(section, "progressive", "progressive", true);
  }

  /** `$section[$key] ?? $fallback` passed to an `int` parameter: the set option's argument, or the fallback. */
  lemma SettingAsInt(section: Entries<Value>, key: string, parameter: string, fallback: int)
    ensures var r := CoerceInt(parameter, Setting(section, key, VInt(fallback)));
            && (r.Ok? <==> Lookup(section, key).None? || IntArgument(section, key).Some?)
            && (r.Ok? ==> r.value == IntArgument(section, key).GetOr(fallback))
  {
  }

  /** `$section[$key] ?? $fallback` passed to a `bool` parameter. */
  lemma SettingAsBool(section: Entries<Value>, key: string, parameter: string, fallback: bool)
    ensures var r := CoerceBool(parameter, Setting(section, key, VBool(fallback)));
            && (r.Ok? <==> Lookup(section, key).None? || BoolArgument(section, key).Some?)
            && (r.Ok? ==> r.value == BoolArgument(section, key).GetOr(fallback))
  {
  }

  /**
   * What `createPngOptimizer` stores: the section's backend or pngquant, with
   * that backend's default binary; quality clamped or 80; speed clamped or 3.
   */
  lemma ConfigurePng(section: Entries<Value>)
    ensures var r := Configure(PngKind, section);
            && (r.Ok? <==> && (Lookup(section, "optimizer").None? || StringArgument(section, "optimizer").Some?)
                           && (Lookup(section, "quality").None? || IntArgument(section, "quality").Some?)
                           && (Lookup(section, "speed").None? || IntArgument(section, "speed").Some?))
            && (r.Ok? ==>
                  var tool := StringArgument(section, "optimizer").GetOr(PNGQUANT);
                  && r.value.settings == PngSettings(tool, Clamp(IntArgument(section, "quality").GetOr(80), 0, 100),
                                                     Clamp(IntArgument(section, "speed").GetOr(3), 1, 10))
                  && r.value.binaryPath == PngDefaultBinary(tool) && r.value.overwrite
                  && r.value.options == SectionExtraOptions(section))
  {
  }

  /** A key the built-in section sets to its fallback, or leaves out, reads the same after the user's keys are merged over it. */
  lemma MergedSetting(d: Entries<Value>, user: Entries<Value>, key: string, fallback: Value)
    requires DistinctKeys(d) && DistinctKeys(user) && !fallback.VNull?
    requires Get(d, key) == None || Get(d, key) == Some(fallback)
    ensures Setting(Merge(d, user), key, fallback) == Setting(user, key, fallback)
  {
    MergeGet(d, user, key);
  }

  lemma MergedLookup(d: Entries<Value>, user: Entries<Value>, key: string)
    requires DistinctKeys(d) && DistinctKeys(user) && key !in Keys(d)
    ensures Lookup(Merge(d, user), key) == Lookup(user, key)
  {
    MergeGet(d, user, key);
  }

  /**
   * Because every built-in setting equals its `??` fallback, replacing a
   * section behaves like a key-by-key merge: a user section configures the
   * optimizer exactly as the built-in section with the user's keys merged
   * over it.
   */
  lemma DefaultsMatchFallbacks(kind: Kind, user: Entries<Value>)
    requires DistinctKeys(user)
    ensures Configure(kind, Merge(DefaultSection(kind), user)) == Configure(kind, user)
  {
    var d := DefaultSection(kind);
    var merged := Merge(d, user);
    match kind
    case JpegKind =>
      assert Keys(d) == ["quality", "strip_all", "progressive"];
      GetAt(d, 0);
      GetAt(d, 1);
      GetAt(d, 2);
      MergedSetting(d, user, "quality", VInt(85));
      MergedSetting(d, user, "strip_all", VBool(true));
      MergedSetting(d, user, "progressive", VBool(true));
      MergedLookup(d, user, "options");
      ConfigureCongruent(kind, merged, user);
    case PngKind =>
      assert Keys(d) == ["optimizer", "quality", "speed"];
      GetAt(d, 0);
      GetAt(d, 1);
      GetAt(d, 2);
      MergedSetting(d, user, "optimizer", VString(PNGQUANT));
      MergedSetting(d, user, "quality", VInt(80));
      MergedSetting(d, user, "speed", VInt(3));
      MergedLookup(d, user, "options");
      ConfigureCongruent(kind, merged, user);
  }

  /** `Configure` reads a section only through the `??` lookups of its keys. */
  lemma ConfigureCongruent(kind: Kind, s1: Entries<Value>, s2: Entries<Value>)
    requires kind == JpegKind ==> && Setting(s1, "quality", VInt(85)) == Setting(s2, "quality", VInt(85))
                                  && Setting(s1, "strip_all", VBool(true)) == Setting(s2, "strip_all", VBool(true))
                                  && Setting(s1, "progressive", VBool(true)) == Setting(s2, "progressive", VBool(true))
    requires kind == PngKind ==> && Setting(s1, "optimizer", VString(PNGQUANT)) == Setting(s2, "optimizer", VString(PNGQUANT))
                                 && Setting(s1, "quality", VInt(80)) == Setting(s2, "quality", VInt(80))
                                 && Setting(s1, "speed", VInt(3)) == Setting(s2, "speed", VInt(3))
    requires Lookup(s1, "options") == Lookup(s2, "options")
    ensures Configure(kind, s1) == Configure(kind, s2)
  {
    assert WithSectionOptions(InitialConfig(kind, None), s1) == WithSectionOptions(InitialConfig(kind, None), s2);
  }

  /** Options that set none of the backend's recognised keys leave the optimizer unchanged; an empty array is one. */
  lemma {:induction false} IgnoredOptions(c: Config, options: Entries<Value>, keys: seq<string>)
    requires forall k :: k in keys ==> k in RecognisedKeys(KindOf(c)) && Lookup(options, k).None?
    ensures ApplyKeys(c, options, keys) == Ok(c)
    decreases |keys|
  {
    if keys != [] {
      assert keys[|keys| - 1] in keys;
      IgnoredOptions(c, options, keys[..|keys| - 1]);
    }
  }

  /** `applyOptions` reads only the recognised keys: options that agree on them have the same effect. */
  lemma {:induction false} OnlyRecognisedKeysMatter(c: Config, o1: Entries<Value>, o2: Entries<Value>, keys: seq<string>)
    requires forall k :: k in keys ==> k in RecognisedKeys(KindOf(c))
    requires forall k :: k in keys ==> Lookup(o1, k) == Lookup(o2, k)
    ensures ApplyKeys(c, o1, keys) == ApplyKeys(c, o2, keys)
    decreases |keys|
  {
    if keys != [] {
      assert keys[|keys| - 1] in keys;
      OnlyRecognisedKeysMatter(c, o1, o2, keys[..|keys| - 1]);
    }
  }

  /** The `!empty($options)` guard changes nothing: applying no options leaves the optimizer as created. */
  lemma EmptyOptionsChangeNothing(c: Config)
    ensures ApplyOptionsSpec(c, []) == Ok(c)
  {
    IgnoredOptions(c, [], RecognisedKeys(KindOf(c)));
  }

  /**
   * The per-call options are written in the setters' camelCase: `strip_all`,
   * the key the configuration uses, is ignored as a call option.
   */
  lemma SnakeCaseOptionIgnored(c: Config, b: bool)
    requires c.settings.JpegSettings?
    ensures ApplyOptionsSpec(c, [("strip_all", VBool(b))]) == Ok(c)
  {
    IgnoredOptions(c, [("strip_all", VBool(b))], RecognisedKeys(KindOf(c)));
  }

  /** A call option `quality` wins over the configured quality, clamped like any other. */
  lemma CallQualityWins(c: Config, options: Entries<Value>, q: int)
    requires Lookup(options, "quality") == Some(VInt(q))
    requires ApplyOptionsSpec(c, options).Ok?
    ensures ApplyOptionsSpec(c, options).value.settings.quality == Clamp(q, 0, 100)
  {
    var keys := RecognisedKeys(KindOf(c));
    assert keys[..1][..0] == [] && keys[..1][0] == "quality";
    assert keys[..2][..1] == keys[..1];
    assert keys[..3][..2] == keys[..2];
    assert keys[..3] == keys;
    assert ApplyKeys(c, options, keys[..1]) == Ok(WithQuality(c, q));
    var second := ApplyKeys(c, options, keys[..2]);
    assert second.Ok? ==> second.value.settings.quality == Clamp(q, 0, 100);
  }

  /** The argument a set option passes to an `int` setter; None when the option is unset or PHP refuses it. */
  function IntArgument(options: Entries<Value>, key: string): Option<int>
  {
    match Lookup(options, key)
    case None => None
    case Some(v) => (match CoerceInt(key, v) case Ok(i) => Some(i) case Err(_) => None)
  }

  /** The argument a set option passes to a `bool` setter. */
  function BoolArgument(options: Entries<Value>, key: string): Option<bool>
  {
    match Lookup(options, key)
    case None => None
    case Some(v) => (match CoerceBool(key, v) case Ok(b) => Some(b) case Err(_) => None)
  }

  /** The argument a set option passes to a `string` setter. */
  function StringArgument(options: Entries<Value>, key: string): Option<string>
  {
    match Lookup(options, key)
    case None => None
    case Some(v) => (match CoerceString(key, v) case Ok(t) => Some(t) case Err(_) => None)
  }

  /**
   * The call options win on a JPEG optimizer: `applyOptions` succeeds exactly
   * when every set option is accepted by its setter, and then each setting
   * is the one its option asks for (quality clamped), or is left as it was
   * when the option is unset; nothing else changes.
   */
  lemma JpegCallOptionsWin(c: Config, options: Entries<Value>)
    requires c.settings.JpegSettings?
    ensures var r := ApplyOptionsSpec(c, options);
            && (r.Ok? <==> && (Lookup(options, "quality").None? || IntArgument(options, "quality").Some?)
                           && (Lookup(options, "stripAll").None? || BoolArgument(options, "stripAll").Some?)
                           && (Lookup(options, "progressive").None? || BoolArgument(options, "progressive").Some?))
            && (r.Ok? ==> r.value == c.(settings := JpegSettings(
                  if IntArgument(options, "quality").Some? then Clamp(IntArgument(options, "quality").value, 0, 100)
                  else c.settings.quality,
                  BoolArgument(options, "stripAll").GetOr(c.settings.stripAll),
                  BoolArgument(options, "progressive").GetOr(c.settings.progressive))))
  {
    var keys := RecognisedKeys(KindOf(c));
    assert keys[..1][..0] == [] && keys[..1][0] == "quality";
    assert keys[..2][..1] == keys[..1] && keys[..2][1] == "stripAll";
    assert keys[..3][..2] == keys[..2] && keys[..3][2] == "progressive";
    assert keys[..3] == keys;
    var q, sa, pr := IntArgument(options, "quality"), BoolArgument(options, "stripAll"), BoolArgument(options, "progressive");
    var c2 := JpegQualityAndStrip(c, options);
    var c3 := if pr.Some? then WithProgressive(c2, pr.value) else c2;
    var k3 := ApplyKeys(c, options, keys);
    assert (k3.Ok? <==> && (Lookup(options, "quality").None? || q.Some?)
                        && (Lookup(options, "stripAll").None? || sa.Some?)
                        && (Lookup(options, "progressive").None? || pr.Some?));
    assert k3.Ok? ==> k3.value == c3;
  }

  /** The first two keys `applyOptions` looks at on a JPEG optimizer, quality then stripAll. */
  lemma JpegQualityAndStrip(c: Config, options: Entries<Value>) returns (c2: Config)
    requires c.settings.JpegSettings?
    ensures var keys := RecognisedKeys(KindOf(c));
            var k2 := ApplyKeys(c, options, keys[..2]);
            && (k2.Ok? <==> && (Lookup(options, "quality").None? || IntArgument(options, "quality").Some?)
                            && (Lookup(options, "stripAll").None? || BoolArgument(options, "stripAll").Some?))
            && (k2.Ok? ==> k2.value == c2)
    ensures var q, sa := IntArgument(options, "quality"), BoolArgument(options, "stripAll");
            var c1 := if q.Some? then WithQuality(c, q.value) else c;
            c2 == if sa.Some? then WithStripAll(c1, sa.value) else c1
  {
    var keys := RecognisedKeys(KindOf(c));
    assert keys[..1][..0] == [] && keys[..1][0] == "quality";
    assert keys[..2][..1] == keys[..1] && keys[..2][1] == "stripAll";
    var q, sa := IntArgument(options, "quality"), BoolArgument(options, "stripAll");
    var c1 := if q.Some? then WithQuality(c, q.value) else c;
    c2 := if sa.Some? then WithStripAll(c1, sa.value) else c1;
    assert ApplyKeys(c, options, keys[..1][..0]) == Ok(c);
    var k1 := ApplyKeys(c, options, keys[..1]);
    assert (k1.Ok? <==> Lookup(options, "quality").None? || q.Some?) && (k1.Ok? ==> k1.value == c1);
  }

  /**
   * The call options win on a PNG optimizer: quality and speed clamped, and
   * a backend name that also resets the binary to that backend's default.
   */
  lemma PngCallOptionsWin(c: Config, options: Entries<Value>)
    requires c.settings.PngSettings?
    ensures var r := ApplyOptionsSpec(c, options);
            && (r.Ok? <==> && (Lookup(options, "quality").None? || IntArgument(options, "quality").Some?)
                           && (Lookup(options, "speed").None? || IntArgument(options, "speed").Some?)
                           && (Lookup(options, "optimizer").None? || StringArgument(options, "optimizer").Some?))
            && (r.Ok? ==> r.value == c.(settings := PngSettings(
                  StringArgument(options, "optimizer").GetOr(c.settings.tool),
                  if IntArgument(options, "quality").Some? then Clamp(IntArgument(options, "quality").value, 0, 100)
                  else c.settings.quality,
                  if IntArgument(options, "speed").Some? then Clamp(IntArgument(options, "speed").value, 1, 10)
                  else c.settings.speed),
                binaryPath := if StringArgument(options, "optimizer").Some?
                              then PngDefaultBinary(StringArgument(options, "optimizer").value)
                              else c.binaryPath))
  {
    var keys := RecognisedKeys(KindOf(c));
    assert keys[..1][..0] == [] && keys[..1][0] == "quality";
    assert keys[..2][..1] == keys[..1] && keys[..2][1] == "speed";
    assert keys[..3][..2] == keys[..2] && keys[..3][2] == "optimizer";
    assert keys[..3] == keys;
    var q, sp, t := IntArgument(options, "quality"), IntArgument(options, "speed"), StringArgument(options, "optimizer");
    var ok1 := Lookup(options, "quality").None? || q.Some?;
    var ok2 := Lookup(options, "speed").None? || sp.Some?;
    var ok3 := Lookup(options, "optimizer").None? || t.Some?;
    var c1 := if q.Some? then WithQuality(c, q.value) else c;
    var c2 := if sp.Some? then WithSpeed(c1, sp.value) else c1;
    var c3 := if t.Some? then WithTool(c2, t.value) else c2;
    assert ApplyKeys(c, options, keys[..1][..0]) == Ok(c);
    var k1 := ApplyKeys(c, options, keys[..1]);
    assert (k1.Ok? <==> ok1) && (k1.Ok? ==> k1.value == c1);
    var k2 := ApplyKeys(c, options, keys[..2]);
    assert (k2.Ok? <==> ok1 && ok2) && (k2.Ok? ==> k2.value == c2);
    var k3 := ApplyKeys(c, options, keys);
    assert (k3.Ok? <==> ok1 && ok2 && ok3) && (k3.Ok? ==> k3.value == c3);
  }

  /** Every optimizer the facade creates overwrites its source, and the call options keep it so. */
  lemma FacadeOverwritesInPlace(host: Host, config: Entries<Value>, path: string, options: Entries<Value>)
    requires Prepared(host, config, path, options).Ok?
    ensures var c := Prepared(host, config, path, options).value;
            && c.overwrite
            && EffectiveDestination(None, c.overwrite, path, host.tempName) == path
            && Run(c, 0, host, path, None).renamed == None
  {
  }

  /**
   * The configured backend decides nothing about validation: a PNG optimizer
   * is created whenever pngquant's binary is usable, and never when it is not.
   */
  lemma PngCreationChecksPngquant(host: Host, config: Entries<Value>)
    ensures !BinaryUsable(host, "/usr/bin/pngquant") ==>
              CreateSpec(host, config, PngKind) == Err(Optimization(BinaryMissing("/usr/bin/pngquant")))
    ensures BinaryUsable(host, "/usr/bin/pngquant") && CreateSpec(host, config, PngKind).Err? ==>
              CreateSpec(host, config, PngKind).error.TypeError?
    ensures BinaryUsable(host, "/usr/bin/pngquant") ==>
              CreateSpec(host, config, PngKind) == Configure(PngKind, Section(config, "png"))
  {
    assert InitialConfig(PngKind, None).binaryPath == "/usr/bin/pngquant";
  }

  /** A JPEG optimizer is created exactly when jpegoptim's binary is usable, and then configured from the `jpeg` section. */
  lemma JpegCreationChecksJpegoptim(host: Host, config: Entries<Value>)
    ensures !BinaryUsable(host, "/usr/bin/jpegoptim") ==>
              CreateSpec(host, config, JpegKind) == Err(Optimization(BinaryMissing("/usr/bin/jpegoptim")))
    ensures BinaryUsable(host, "/usr/bin/jpegoptim") ==>
              CreateSpec(host, config, JpegKind) == Configure(JpegKind, Section(config, "jpeg"))
  {
    assert InitialConfig(JpegKind, None).binaryPath == "/usr/bin/jpegoptim";
  }

  /** An unknown PNG backend is not an OptimizationException: it escapes the batch. */
  lemma UnknownToolEscapesBatch(host: Host, config: Entries<Value>, path: string, options: Entries<Value>)
    requires Prepared(host, config, path, options).Ok?
    requires var c := Prepared(host, config, path, options).value;
             c.settings.PngSettings? && !KnownTool(c.settings.tool)
    ensures var tool := Prepared(host, config, path, options).value.settings.tool;
            && OptimizeSpec(host, config, path, None, options) == Err(UnhandledMatch(tool))
            && BatchEntry(host, config, path, options) == Err(UnhandledMatch(tool))
  {
  }

  /**
   * The figures of a recorded attempt agree: the ratio is zero for an empty
   * source, and otherwise the percentage is the saved bytes over the
   * original size, except when the backend produced an empty file, which is
   * reported as unchanged in size yet fully compressed.
   */
  lemma AttemptFigures(c: Config, host: Host, path: string, destination: Option<string>)
    requires Attempt(c, host, path, destination).Ok?
    ensures var r := Attempt(c, host, path, destination).value;
            var produced := Run(c, 0, host, path, destination).optimizedSize;
            && (r.originalSize == 0 ==> r.compressionRatio == 0.0)
            && (r.originalSize > 0 && produced != 0 ==>
                  r.CompressionPercentage() * r.originalSize as real == 100.0 * r.SavedBytes() as real)
            && (r.originalSize > 0 && produced == 0 ==>
                  && r.optimizedSize == r.originalSize && r.compressionRatio == 1.0
                  && r.SavedBytes() == 0 && r.CompressionPercentage() == 100.0)
    ensures var r := Attempt(c, host, path, destination).value;
            r.originalSize > 0 ==>
              (|| r.CompressionPercentage() * r.originalSize as real == 100.0 * r.SavedBytes() as real
               || (r.optimizedSize == r.originalSize && r.compressionRatio == 1.0))
  {
    var r := Attempt(c, host, path, destination).value;
    var produced := Run(c, 0, host, path, destination).optimizedSize;
    if r.originalSize > 0 && produced != 0 {
      assert r.compressionRatio * r.originalSize as real == (r.originalSize - r.optimizedSize) as real;
    }
  }

  /** A successful optimization is the attempt of the prepared optimizer, whose figures `AttemptFigures` relates. */
  lemma OptimizeIsAttempt(host: Host, config: Entries<Value>, path: string, destination: Option<string>, options: Entries<Value>)
    requires OptimizeSpec(host, config, path, destination, options).Ok?
    ensures Prepared(host, config, path, options).Ok?
    ensures OptimizeSpec(host, config, path, destination, options)
         == Attempt(Prepared(host, config, path, options).value, host, path, destination)
  {
  }

  /**
   * A batch entry is the optimization of its path with no destination when
   * that succeeds; a caught OptimizationException becomes a failed entry
   * carrying the exception's message; anything else escapes unchanged.
   */
  lemma BatchEntryShape(host: Host, config: Entries<Value>, path: string, options: Entries<Value>)
    ensures var o := OptimizeSpec(host, config, path, None, options);
            var e := BatchEntry(host, config, path, options);
            && (o.Ok? ==> e == o)
            && (o.Err? && o.error.Optimization? ==>
                  e == Ok(FailedResult(path, host.fileSize(path), o.error.exception.message)))
            && (o.Err? && !o.error.Optimization? ==> e == Err(o.error))
    ensures var e := BatchEntry(host, config, path, options);
            && (e.Ok? ==> e.value.sourcePath == path && e.value.destinationPath == None)
            && (e.Err? ==> !e.error.Optimization?)
            && (e.Ok? && !e.value.success ==>
                  (&& e.value.originalSize == e.value.optimizedSize == host.fileSize(path)
                   && e.value.SavedBytes() == 0 && e.value.CompressionPercentage() == 0.0
                   && e.value.optimizerClass == None && e.value.error.Some?))
  {
  }

  lemma {:induction false} CollectErrorPersists<T, R, E>(xs: seq<T>, f: T -> Result<R, E>, j: nat)
    requires j <= |xs| && Collect(xs[..j], f).Err?
    ensures Collect(xs, f) == Collect(xs[..j], f)
    decreases |xs|
  {
    if j < |xs| {
      var init := xs[..|xs| - 1];
      assert init[..j] == xs[..j];
      CollectErrorPersists(init, f, j);
    } else {
      assert xs[..j] == xs;
    }
  }

  /** One result per element, in order, each `f` of that element alone, unless one fails and that is the outcome. */
  lemma {:induction false} CollectShape<T, R, E>(xs: seq<T>, f: T -> Result<R, E>)
    ensures var b := Collect(xs, f);
            && (b.Ok? <==> forall i :: 0 <= i < |xs| ==> f(xs[i]).Ok?)
            && (b.Ok? ==> |b.value| == |xs| && forall i :: 0 <= i < |xs| ==> b.value[i] == f(xs[i]).value)
            && (b.Err? ==> exists i :: && 0 <= i < |xs| && f(xs[i]) == Err(b.error)
                                       && forall j :: 0 <= j < i ==> f(xs[j]).Ok?)
    decreases |xs|
  {
    if xs != [] {
      var init := xs[..|xs| - 1];
      CollectShape(init, f);
      assert forall i :: 0 <= i < |init| ==> init[i] == xs[i];
      var b := Collect(xs, f);
      if b.Err? {
        if Collect(init, f).Err? {
          var i :| && 0 <= i < |init| && f(init[i]) == Err(Collect(init, f).error)
                   && forall j :: 0 <= j < i ==> f(init[j]).Ok?;
          assert f(xs[i]) == Err(b.error);
        } else {
          var i := |xs| - 1;
          assert f(xs[i]) == Err(b.error);
          assert forall j :: 0 <= j < i ==> f(xs[j]).Ok? by {
            forall j | 0 <= j < i ensures f(xs[j]).Ok? {
              assert f(init[j]).Ok?;
            }
          }
        }
      }
    }
  }

  /**
   * A batch isolates its images: it yields one result per path, in order,
   * each the entry of that path alone, unless some image raises something
   * other than an OptimizationException; the first such failure, after
   * which no later path is tried, then escapes the batch.
   */
  lemma BatchShape(host: Host, config: Entries<Value>, paths: seq<string>, options: Entries<Value>)
    ensures var b := BatchSpec(host, config, paths, options);
            && (b.Ok? <==> forall i :: 0 <= i < |paths| ==> BatchEntry(host, config, paths[i], options).Ok?)
            && (b.Ok? ==> |b.value| == |paths|
                          && forall i :: 0 <= i < |paths| ==> b.value[i] == BatchEntry(host, config, paths[i], options).value)
            && (b.Err? ==> && (exists i :: && 0 <= i < |paths| && BatchEntry(host, config, paths[i], options) == Err(b.error)
                                          && forall j :: 0 <= j < i ==> BatchEntry(host, config, paths[j], options).Ok?)
                           && !b.error.Optimization?)
  {
    var f := BatchEntries(host, config, options);
    CollectShape(paths, f);
    var b := BatchSpec(host, config, paths, options);
    if b.Err? {
      var i :| && 0 <= i < |paths| && f(paths[i]) == Err(b.error)
               && forall j :: 0 <= j < i ==> f(paths[j]).Ok?;
      assert forall j :: 0 <= j < i ==> BatchEntry(host, config, paths[j], options).Ok? by {
        forall j | 0 <= j < i ensures BatchEntry(host, config, paths[j], options).Ok? {
          assert f(paths[j]).Ok?;
        }
      }
      BatchEntryShape(host, config, paths[i], options);
    }
  }

  /** `applyOptions` calling the setter its key names. */
  method InvokeSetter(o: Optimizer, key: string, v: Value) returns (r: Outcome<Failure>)
    requires key in RecognisedKeys(KindOf(o.Configuration()))
    modifies o
    ensures var spec := ApplyOption(old(o.Configuration()), key, v);
            && (r.Pass? <==> spec.Ok?)
            && (r.Fail? ==> spec == Err(r.error))
            && (r.Pass? ==> o.Configuration() == spec.value)
    ensures o.sourcePath == old(o.sourcePath) && o.originalSize == old(o.originalSize) && o.optimizedSize == old(o.optimizedSize)
    ensures old(o.Valid()) ==> o.Valid()
  {
    if key == "quality" {
      var quality := CoerceInt("quality", v);
      if quality.Err? {
        return Fail(quality.error);
      }
      o.SetQuality(quality.value);
    } else if key == "stripAll" {
      var stripAll := CoerceBool("stripAll", v);
      if stripAll.Err? {
        return Fail(stripAll.error);
      }
      o.SetStripAll(stripAll.value);
    } else if key == "progressive" {
      var progressive := CoerceBool("progressive", v);
      if progressive.Err? {
        return Fail(progressive.error);
      }
      o.SetProgressive(progressive.value);
    } else if key == "speed" {
      var speed := CoerceInt("speed", v);
      if speed.Err? {
        return Fail(speed.error);
      }
      o.SetSpeed(speed.value);
    } else {
      var tool := CoerceString("optimizer", v);
      if tool.Err? {
        return Fail(tool.error);
      }
      o.SetOptimizer(tool.value);
    }
    r := Pass;
  }

  class ImageOptimizer {
    var defaultConfig: Entries<Value>

    ghost predicate Valid()
      reads this
    {
      WellFormedEntries(defaultConfig)
    }

    /** `__construct($config)`: the user's sections replace the built-in ones. */
    constructor (config: Entries<Value>)
      requires WellFormedEntries(config)
      ensures defaultConfig == Merge(DefaultConfig(), config) && Valid()
    {
      assert WellFormedEntries(DefaultConfig()) by {
        assert Keys(DefaultConfig()) == ["jpeg", "png"];
        assert Keys(DefaultSection(JpegKind)) == ["quality", "strip_all", "progressive"];
        assert Keys(DefaultSection(PngKind)) == ["optimizer", "quality", "speed"];
      }
      MergeWellFormed(DefaultConfig(), config);
      defaultConfig := Merge(DefaultConfig(), config);
    }

    /** `createJpegOptimizer()`. */
    method CreateJpegOptimizer(host: Host) returns (r: Result<Optimizer, Failure>)
      requires Valid()
      ensures var spec := CreateSpec(host, defaultConfig, JpegKind);
              && (r.Ok? <==> spec.Ok?)
              && (r.Err? ==> spec == Err(r.error))
      ensures r.Ok? ==> && fresh(r.value) && r.value.Valid()
                        && r.value.Configuration() == CreateSpec(host, defaultConfig, JpegKind).value
                        && r.value.originalSize == 0 && r.value.optimizedSize == 0
    {
      var o :- Optimizer.Create(JpegKind, None, host);
      var section := Section(defaultConfig, "jpeg");
      SectionWellFormed(defaultConfig, "jpeg");
      var quality :- CoerceInt("quality", Setting(section, "quality", VInt(85)));
      o.SetQuality(quality);
      var stripAll :- CoerceBool("stripAll", Setting(section, "strip_all", VBool(true)));
      o.SetStripAll(stripAll);
      var progressive :- CoerceBool("progressive", Setting(section, "progressive", VBool(true)));
      o.SetProgressive(progressive);
      match Lookup(section, "options") {
        case Some(VArray(extra)) =>
          GetWellFormed(section, "options");
          o.SetOptions(extra);
        case _ =>
      }
      r := Ok(o);
    }

    /** `createPngOptimizer()`. */
    method CreatePngOptimizer(host: Host) returns (r: Result<Optimizer, Failure>)
      requires Valid()
      ensures var spec := CreateSpec(host, defaultConfig, PngKind);
              && (r.Ok? <==> spec.Ok?)
              && (r.Err? ==> spec == Err(r.error))
      ensures r.Ok? ==> && fresh(r.value) && r.value.Valid()
                        && r.value.Configuration() == CreateSpec(host, defaultConfig, PngKind).value
                        && r.value.originalSize == 0 && r.value.optimizedSize == 0
    {
      var o :- Optimizer.Create(PngKind, None, host);
      var section := Section(defaultConfig, "png");
      SectionWellFormed(defaultConfig, "png");
      var tool :- CoerceString("optimizer", Setting(section, "optimizer", VString(PNGQUANT)));
      o.SetOptimizer(tool);
      var quality :- CoerceInt("quality", Setting(section, "quality", VInt(80)));
      o.SetQuality(quality);
      var speed :- CoerceInt("speed", Setting(section, "speed", VInt(3)));
      o.SetSpeed(speed);
      match Lookup(section, "options") {
        case Some(VArray(extra)) =>
          GetWellFormed(section, "options");
          o.SetOptions(extra);
        case _ =>
      }
      r := Ok(o);
    }

    /** `getOptimizerForImage($imagePath)`. */
    method GetOptimizerForImage(host: Host, path: string) returns (r: Result<Optimizer, Failure>)
      requires Valid()
      ensures var spec := OptimizerFor(host, defaultConfig, path);
              && (r.Ok? <==> spec.Ok?)
              && (r.Err? ==> spec == Err(r.error))
      ensures r.Ok? ==> && fresh(r.value) && r.value.Valid()
                        && r.value.Configuration() == OptimizerFor(host, defaultConfig, path).value
                        && r.value.optimizedSize == 0
    {
      var extension := ImageExtension(path);
      var mime := host.mimeType(path);
      if extension == "jpg" || extension == "jpeg" || Contains(mime, "jpeg") {
        r := CreateJpegOptimizer(host);
      } else if extension == "png" || Contains(mime, "png") {
        r := CreatePngOptimizer(host);
      } else {
        r := Err(Optimization(UnsupportedType(extension, mime)));
      }
    }

    /** `applyOptions($optimizer, $options)`. */
    method ApplyOptions(o: Optimizer, options: Entries<Value>) returns (r: Outcome<Failure>)
      modifies o
      ensures var spec := ApplyOptionsSpec(old(o.Configuration()), options);
              && (r.Pass? <==> spec.Ok?)
              && (r.Fail? ==> spec == Err(r.error))
              && (r.Pass? ==> o.Configuration() == spec.value)
      ensures o.sourcePath == old(o.sourcePath) && o.originalSize == old(o.originalSize) && o.optimizedSize == old(o.optimizedSize)
      ensures old(o.Valid()) && r.Pass? ==> o.Valid()
    {
      ghost var c := o.Configuration();
      ghost var wasValid := o.Valid();
      var keys := RecognisedKeys(KindOf(o.Configuration()));
      var i := 0;
      while i < |keys|
        invariant 0 <= i <= |keys|
        invariant ApplyKeys(c, options, keys[..i]) == Ok(o.Configuration())
        invariant KindOf(o.Configuration()) == KindOf(c)
        invariant o.sourcePath == old(o.sourcePath) && o.originalSize == old(o.originalSize) && o.optimizedSize == old(o.optimizedSize)
        invariant wasValid ==> o.Valid()
      {
        var key := keys[i];
        assert keys[..i + 1][..i] == keys[..i];
        match Lookup(options, key) {
          case Some(v) =>
            var applied := InvokeSetter(o, key, v);
            if applied.Fail? {
              ApplyKeysErrorPersists(c, options, keys, i + 1);
              return applied;
            }
          case None =>
        }
        i := i + 1;
      }
      assert keys[..i] == keys;
      r := Pass;
    }

    /** `optimize($imagePath, $destinationPath, $options)`. */
    method Optimize(host: Host, path: string, destination: Option<string>, options: Entries<Value>)
      returns (r: Result<OptimizationResult, Failure>)
      requires Valid()
      ensures r == OptimizeSpec(host, defaultConfig, path, destination, options)
    {
      var o :- GetOptimizerForImage(host, path);
      if options != [] {
        var applied := ApplyOptions(o, options);
        if applied.Fail? {
          return Err(applied.error);
        }
      }
      var originalSize := host.fileSize(path);
      var success, _ := o.Optimize(host, path, destination);
      if success.Err? {
        return Err(success.error);
      }
      r := Ok(OptimizationResult(
        success.value, path, destination, originalSize,
        o.GetOptimizedSize(), o.GetCompressionRatio(),
        Some(ClassName(KindOf(o.Configuration())))));
    }

    /** The body of the `batchOptimize` loop for one image. */
    method OptimizeEntry(host: Host, path: string, options: Entries<Value>) returns (entry: Result<OptimizationResult, Failure>)
      requires Valid()
      ensures entry == BatchEntry(host, defaultConfig, path, options)
    {
      var attempt := Optimize(host, path, None, options);
      match attempt {
        case Ok(result) =>
          entry := Ok(result);
        case Err(Optimization(e)) =>
          entry := Ok(FailedResult(path, host.fileSize(path), e.message));
        case Err(f) =>
          entry := Err(f);
      }
    }

    /** `batchOptimize($imagePaths, $options)`. */
    method BatchOptimize(host: Host, paths: seq<string>, options: Entries<Value>)
      returns (r: Result<seq<OptimizationResult>, Failure>)
      requires Valid()
      ensures r == BatchSpec(host, defaultConfig, paths, options)
    {
      var results: seq<OptimizationResult> := [];
      var i := 0;
      while i < |paths|
        invariant 0 <= i <= |paths|
        invariant BatchSpec(host, defaultConfig, paths[..i], options) == Ok(results)
      {
        assert paths[..i + 1][..i] == paths[..i];
        var entry := OptimizeEntry(host, paths[i], options);
        if entry.Err? {
          CollectErrorPersists(paths, BatchEntries(host, defaultConfig, options), i + 1);
          return Err(entry.error);
        }
        results := results + [entry.value];
        i := i + 1;
      }
      assert paths[..i] == paths;
      r := Ok(results);
    }
  }

  lemma {:induction false} ApplyKeysErrorPersists(c: Config, options: Entries<Value>, keys: seq<string>, j: nat)
    requires forall k :: k in keys ==> k in RecognisedKeys(KindOf(c))
    requires j <= |keys| && ApplyKeys(c, options, keys[..j]).Err?
    ensures ApplyKeys(c, options, keys) == ApplyKeys(c, options, keys[..j])
    decreases |keys|
  {
    if j < |keys| {
      var init := keys[..|keys| - 1];
      assert init[..j] == keys[..j];
      ApplyKeysErrorPersists(c, options, init, j);
    } else {
      assert keys[..j] == keys;
    }
  }
}
