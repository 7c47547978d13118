/** The argument vector the JPEG optimizer hands to `jpegoptim`. */
module JpegCommands {
  import opened PhpStrings
  import opened PhpArrays
  import opened PhpValues
  import opened OptionFlags

  const JPEGOPTIM_BINARY := "/usr/bin/jpegoptim"

  /** The fixed flags, in order: `--max=<quality>` unless quality is 0, then `--strip-all`, then `--all-progressive`. */
  function JpegFlags(quality: int, stripAll: bool, progressive: bool): seq<string>
  {
    (if quality != 0 then ["--max=" + IntToString(quality)] else [])
    + (if stripAll then ["--strip-all"] else [])
    + (if progressive then ["--all-progressive"] else [])
  }

  /** The source path, then `--dest=<directory of destination>` when writing elsewhere without overwrite. */
  function JpegTail(overwrite: bool, source: string, destination: string): seq<string>
  {
    [source] + (if !overwrite && source != destination then ["--dest=" + DirName(destination)] else [])
  }

  function JpegArgv(binary: string, quality: int, stripAll: bool, progressive: bool,
                    options: Entries<Value>, overwrite: bool, source: string, destination: string): seq<string>
  {
    [binary] + JpegFlags(quality, stripAll, progressive) + LongOptions(options) + JpegTail(overwrite, source, destination)
  }

  /**
   * Each fixed flag is present exactly when its setting asks for it, and they
   * come in the order max, strip, progressive.
   */
  lemma JpegFlagsPresence(quality: int, stripAll: bool, progressive: bool)
    ensures var f := JpegFlags(quality, stripAll, progressive);
            && ("--strip-all" in f <==> stripAll)
            && ("--all-progressive" in f <==> progressive)
            && (("--max=" + IntToString(quality)) in f <==> quality != 0)
            && |f| == (if quality != 0 then 1 else 0) + (if stripAll then 1 else 0) + (if progressive then 1 else 0)
            && (quality != 0 ==> f[0] == "--max=" + IntToString(quality))
            && (stripAll ==> f[if quality != 0 then 1 else 0] == "--strip-all")
            && (progressive ==> f[|f| - 1] == "--all-progressive")
  {
    var m := "--max=" + IntToString(quality);
    assert m[..2] == "--" && m[2] == 'm';
    assert "--strip-all"[2] == 's' && "--all-progressive"[2] == 'a';
  }

  /**
   * The layout of the jpegoptim command: the binary first, then the fixed
   * flags, then the extra options, then the source; the source is the last
   * argument unless `--dest=` follows it.
   */
  lemma JpegArgvLayout(binary: string, quality: int, stripAll: bool, progressive: bool,
                       options: Entries<Value>, overwrite: bool, source: string, destination: string)
    ensures var argv := JpegArgv(binary, quality, stripAll, progressive, options, overwrite, source, destination);
            var f := JpegFlags(quality, stripAll, progressive);
            var o := LongOptions(options);
            && argv[0] == binary
            && argv[1..1 + |f|] == f
            && argv[1 + |f|..1 + |f| + |o|] == o
            && argv[1 + |f| + |o|] == source
            && (if !overwrite && source != destination
                then |argv| == |f| + |o| + 3 && argv[|argv| - 1] == "--dest=" + DirName(destination)
                else |argv| == |f| + |o| + 2)
  {
    var argv := JpegArgv(binary, quality, stripAll, progressive, options, overwrite, source, destination);
    var f := JpegFlags(quality, stripAll, progressive);
    var o := LongOptions(options);
    var t := JpegTail(overwrite, source, destination);
    assert argv == [binary] + f + o + t;
    assert argv[1..1 + |f|] == f;
    assert argv[1 + |f|..1 + |f| + |o|] == o;
  }

  /**
   * With overwrite on, the command does not depend on the destination at all:
   * jpegoptim rewrites the source in place whatever destination is given.
   */
  lemma JpegOverwriteIgnoresDestination(binary: string, quality: int, stripAll: bool, progressive: bool,
                                        options: Entries<Value>, source: string, d1: string, d2: string)
    ensures JpegArgv(binary, quality, stripAll, progressive, options, true, source, d1)
         == JpegArgv(binary, quality, stripAll, progressive, options, true, source, d2)
    ensures var argv := JpegArgv(binary, quality, stripAll, progressive, options, true, source, d1);
            argv[|argv| - 1] == source
  {
  }

  /**
   * Quality 90 with strip and no progressive flag, no extra options: the
   * command carries `--max=90` and `--strip-all` and no progressive flag.
   */
  lemma JpegExample(binary: string, source: string)
    ensures JpegArgv(binary, 90, true, false, [], true, source, source) == [binary, "--max=90", "--strip-all", source]
  {
    assert DigitChar(9) == '9' && DigitChar(0) == '0';
    assert NatToString(90) == NatToString(9) + [DigitChar(0)] == "90";
    assert IntToString(90) == "90";
    assert "--max=" + IntToString(90) == "--max=90";
    assert JpegFlags(90, true, false) == ["--max=90", "--strip-all"];
    assert LongOptions([]) == [];
    assert JpegTail(true, source, source) == [source];
  }
}
