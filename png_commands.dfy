/** The three PNG backends: their default binaries and the argument vectors the PNG optimizer builds for them. */
module PngCommands {
  import opened Wrappers
  import opened PhpStrings
  import opened PhpArrays
  import opened PhpValues
  import opened Errors
  import opened OptionFlags

  const PNGQUANT := "pngquant"
  const OPTIPNG := "optipng"
  const PNGCRUSH := "pngcrush"

  predicate KnownTool(tool: string)
  {
    tool == PNGQUANT || tool == OPTIPNG || tool == PNGCRUSH
  }

  /** The default binary of a backend; an unknown name falls back to pngquant's. */
  function PngDefaultBinary(tool: string): (path: string)
    ensures tool == OPTIPNG ==> path == "/usr/bin/optipng"
    ensures tool == PNGCRUSH ==> path == "/usr/bin/pngcrush"
    ensures !(tool == OPTIPNG || tool == PNGCRUSH) ==> path == "/usr/bin/pngquant"
  {
    match tool
    case "pngquant" => "/usr/bin/pngquant"
    case "optipng" => "/usr/bin/optipng"
    case "pngcrush" => "/usr/bin/pngcrush"
    case _ => "/usr/bin/pngquant"
  }

  /** pngquant: `--quality=` and `--speed=` unless 0, long-form options, `--output=<destination>`, the source. */
  function PngquantArgv(binary: string, quality: int, speed: int, options: Entries<Value>,
                        source: string, destination: string): seq<string>
  {
    [binary]
    + (if quality != 0 then ["--quality=" + IntToString(quality)] else [])
    + (if speed != 0 then ["--speed=" + IntToString(speed)] else [])
    + LongOptions(options)
    + ["--output=" + destination, source]
  }

  /** optipng: `-o2 -strip all`, short-form options, `-out=<destination>`, the source. */
  function OptipngArgv(binary: string, options: Entries<Value>, source: string, destination: string): seq<string>
  {
    [binary, "-o2", "-strip", "all"] + ShortOptions(options) + ["-out=" + destination, source]
  }

  /** pngcrush: short-form options, then source and destination as plain arguments. */
  function PngcrushArgv(binary: string, options: Entries<Value>, source: string, destination: string): seq<string>
  {
    [binary] + ShortOptions(options) + [source, destination]
  }

  /** The backend dispatch, a `match` with no default arm: an unknown name is an error. */
  function PngArgv(tool: string, binary: string, quality: int, speed: int, options: Entries<Value>,
                   source: string, destination: string): (r: Result<seq<string>, Failure>)
    ensures r.Err? <==> !KnownTool(tool)
    ensures r.Err? ==> r.error == UnhandledMatch(tool)
  {
    match tool
    case "pngquant" => Ok(PngquantArgv(binary, quality, speed, options, source, destination))
    case "optipng" => Ok(OptipngArgv(binary, options, source, destination))
    case "pngcrush" => Ok(PngcrushArgv(binary, options, source, destination))
    case _ => Err(UnhandledMatch(tool))
  }

  /**
   * pngquant's command starts with the binary, names the destination in its
   * `--output=` flag just before the last argument, and ends with the source;
   * `--speed=` is present whenever speed is in its clamped range.
   */
  lemma PngquantLayout(binary: string, quality: int, speed: int, options: Entries<Value>,
                       source: string, destination: string)
    ensures var argv := PngquantArgv(binary, quality, speed, options, source, destination);
            var q := if quality != 0 then 1 else 0;
            var s := if speed != 0 then 1 else 0;
            && |argv| == 3 + q + s + |LongOptions(options)|
            && argv[0] == binary
            && (quality != 0 ==> argv[1] == "--quality=" + IntToString(quality))
            && (1 <= speed <= 10 ==> argv[1 + q] == "--speed=" + IntToString(speed))
            && argv[1 + q + s..|argv| - 2] == LongOptions(options)
            && argv[|argv| - 2] == "--output=" + destination
            && argv[|argv| - 1] == source
  {
    var argv := PngquantArgv(binary, quality, speed, options, source, destination);
    var q := if quality != 0 then 1 else 0;
    var s := if speed != 0 then 1 else 0;
    var pre := [binary]
      + (if quality != 0 then ["--quality=" + IntToString(quality)] else [])
      + (if speed != 0 then ["--speed=" + IntToString(speed)] else []);
    assert argv == pre + LongOptions(options) + ["--output=" + destination, source];
    assert argv[|pre|..|argv| - 2] == LongOptions(options);
  }

  /**
   * optipng's command: the four fixed arguments, one argument per option,
   * `-out=<destination>`, then the source; six arguments plus one per option.
   */
  lemma OptipngLayout(binary: string, options: Entries<Value>, source: string, destination: string)
    ensures var argv := OptipngArgv(binary, options, source, destination);
            && |argv| == 6 + |options|
            && argv[..4] == [binary, "-o2", "-strip", "all"]
            && (forall j :: 0 <= j < |options| ==> argv[4 + j] == "-" + options[j].0 + ToPhpString(options[j].1))
            && argv[|argv| - 2] == "-out=" + destination
            && argv[|argv| - 1] == source
  {
    ShortOptionsShape(options);
    var argv := OptipngArgv(binary, options, source, destination);
    assert forall j :: 0 <= j < |options| ==> argv[4 + j] == ShortOptions(options)[j];
  }

  /**
   * pngcrush's command: the binary, one argument per option, then the source
   * and the destination as its last two arguments, with no output flag.
   */
  lemma PngcrushLayout(binary: string, options: Entries<Value>, source: string, destination: string)
    ensures var argv := PngcrushArgv(binary, options, source, destination);
            && |argv| == 3 + |options|
            && argv[0] == binary
            && (forall j :: 0 <= j < |options| ==> argv[1 + j] == "-" + options[j].0 + ToPhpString(options[j].1))
            && argv[|argv| - 2] == source
            && argv[|argv| - 1] == destination
  {
    ShortOptionsShape(options);
    var argv := PngcrushArgv(binary, options, source, destination);
    assert forall j :: 0 <= j < |options| ==> argv[1 + j] == ShortOptions(options)[j];
  }
}
