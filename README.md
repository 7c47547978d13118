# image-optimizer, modelled in Dafny

A model of the core of the PHP library image-optimizer (namespace
`CoderDen\ImageOptimizer`), with proofs about it. The library picks a
backend for an image from its extension and MIME type. It then sets the
backend up from a two-level configuration array and per-call options, and
turns that configuration into the exact argument vector of an external
tool (`jpegoptim`, `pngquant`, `optipng` or `pngcrush`). It runs the tool,
records the sizes before and after, and reports each attempt as an
immutable `OptimizationResult`. A batch mode repeats the attempt over a
list of paths.

The model has these modules, one concern each:

- `Optimizers`: a class `Optimizer` with the fields of `BaseOptimizer`. The
  backend-specific settings of `JpegOptimizer` and `PngOptimizer` live in a
  tagged `Settings` value. Its setters are `modifies this` methods. Each is
  specified by a pure `With…` function of the configuration. `GetCommand`
  dispatches on the backend to per-backend builders proved equal to the
  argument-vector functions; the extra options are appended by the loops
  `AppendLongOptions` and `AppendShortOptions`. `Optimize` is proved equal to the function `Run`.
- `JpegCommands` and `PngCommands`: the argument vectors as functions, with
  lemmas on their layout. `OptionFlags`: how the extra-options array becomes
  arguments, in long form (`--name`, `--name=value`, nothing for `false`)
  and in short form (`-namevalue`).
- `ImageOptimizers`: the facade class `ImageOptimizer`. It covers type
  detection, creation from the merged configuration, per-call options,
  single optimisation and the batch, each specified by a pure function
  (`OptimizerFor`, `CreateSpec`, `ApplyOptionsSpec`, `OptimizeSpec`,
  `BatchSpec`).
- `Results`: `OptimizationResult` as a datatype, with `getSavedBytes`,
  `getCompressionPercentage` and `toArray`. A reading-back function
  `FromArray` is the partner of `ToArray`.
- Supporting PHP semantics: `PhpStrings` (falsy strings, integer-to-string
  and back, `strtolower`, `str_contains`, `pathinfo`, `dirname`,
  `explode`/`implode`), `PhpArrays` (ordered string-keyed arrays and
  `array_merge`) and `PhpValues` (a PHP value, `??`/`isset`, and the
  coercion of an argument to a scalar-typed parameter). `Errors` holds
  `OptimizationException` and the three ways a call can fail:
  - an `Optimization` exception;
  - a `TypeError` from a parameter type;
  - an `UnhandledMatch` from a `match` without a default arm.
- `Environment`: the filesystem and the process runner as a `Host` value
  of oracle functions.

Behaviour the proofs make explicit:

- `batchOptimize` catches only `OptimizationException`. An unknown PNG
  backend name (an `UnhandledMatchError` in `PngOptimizer::getCommand`) or
  an option value that a setter's parameter type rejects ends the whole
  batch (`BatchShape`, `UnknownToolEscapesBatch`). A process run that throws
  would end it too; that case is outside the model (see "Left out").
- A PNG optimizer is always validated against pngquant's binary. The
  constructor checks the default binary before `setOptimizer` switches to
  the configured backend (`PngCreationChecksPngquant`).
- When the backend leaves an empty file, `getOptimizedSize` falls back to
  the original size, but `getCompressionRatio` uses the raw zero. The
  result then shows no bytes saved at 100 % compression (`AttemptFigures`).
- With overwrite on, the jpegoptim command ignores the destination
  (`JpegOverwriteIgnoresDestination`). The facade always creates optimizers
  with overwrite on, so a facade call without a destination rewrites the
  source in place (`FacadeOverwritesInPlace`).
- The configuration key for JPEG stripping is `strip_all`. The per-call
  option key is `stripAll`. A call option `strip_all` is ignored
  (`SnakeCaseOptionIgnored`).
- A user configuration section replaces the built-in one whole
  (`ShallowConfigMerge`). Because the fallbacks written in
  `createJpegOptimizer` and `createPngOptimizer` equal the built-in
  defaults, this is indistinguishable from a per-key merge
  (`DefaultsMatchFallbacks`).

## Model

| member | source | states |
|---|---|---|
| `Optimizers.Optimizer.constructor` | src/Optimizers/BaseOptimizer.php:12-21 | a new optimizer holds the given binary when it is not falsy, otherwise the backend's default, with the backend's default settings, no options, overwrite on and both sizes zero |
| `Optimizers.Optimizer.Create` | src/Optimizers/BaseOptimizer.php:19-23 | construction fails exactly when the chosen binary does not exist or is not executable, with the "Binary not found or not executable" exception; otherwise the new object holds the initial configuration |
| `Optimizers.Optimizer.Optimize` | src/Optimizers/BaseOptimizer.php:28-61 | records the source and its size, leaves the configuration unchanged, and returns the outcome, the new optimized size and the path renamed over the source, as `Run` defines them |
| `Optimizers.DestinationChoice` | src/Optimizers/BaseOptimizer.php:33-48 | the destination is the given one unless it is falsy, then the source when overwriting, else the temporary file; a rename over the source is reported only with overwrite on and a given, non-falsy destination other than the source, and names that destination |
| `Optimizers.RunFailure` | src/Optimizers/BaseOptimizer.php:40-59 | a failed process gives an OptimizationException carrying the space-joined command and output lines that join back to the captured output (none when it is falsy); the optimized size is unchanged and nothing is renamed |
| `Optimizers.RunSuccess` | src/Optimizers/BaseOptimizer.php:44-50 | a command that can be built and a process that succeeds make `optimize` return true; on success the optimized size is the destination's size after the run, and a rename happens exactly when the destination differs from the source with overwrite on; in the model, the only failure that is not an OptimizationException is UnhandledMatch of an unknown PNG backend |
| `Optimizers.Optimizer.SetOptions` | src/Optimizers/BaseOptimizer.php:63-67 | the new configuration is the old with the options `array_merge`d, nothing else changes, and validity is kept |
| `Optimizers.SetOptionsMerges` | src/Optimizers/BaseOptimizer.php:63-67 | after the merge the keys are the old keys followed by the new unseen ones, a new key reads its new value, an untouched key its old one, and the settings, binary and overwrite flag are unchanged |
| `PhpArrays.MergeGet` | src/Optimizers/BaseOptimizer.php:65 | in `array_merge(m, n)` a key of `n` reads its value from `n`, any other key its value from `m` |
| `PhpArrays.MergeKeys` | src/Optimizers/BaseOptimizer.php:65 | the keys of `array_merge(m, n)` are those of `m`, in order, followed by the keys of `n` that `m` lacks, in order |
| `PhpArrays.MergeDistinct` | src/Optimizers/BaseOptimizer.php:65 | merging anything into an array with distinct keys yields distinct keys |
| `PhpArrays.MergeKeepsUntouched` | src/Optimizers/BaseOptimizer.php:65 | a key of `m` that `n` lacks keeps its position and value |
| `Optimizers.CompressionRatio` | src/Optimizers/BaseOptimizer.php:74-81 | the ratio is 0 for an empty source, otherwise it times the original size equals the bytes saved; it never exceeds 1 and is non-negative when the file did not grow |
| `Optimizers.Optimizer.SetOverwrite` | src/Optimizers/BaseOptimizer.php:92-96 | only the overwrite flag changes |
| `PhpStrings.JoinSplit` | src/Optimizers/BaseOptimizer.php:56 | `implode` with a separator undoes `explode` on it |
| `PhpStrings.Split` | src/Optimizers/BaseOptimizer.php:56 | `explode` yields at least one piece, and no piece contains the separator |
| `Optimizers.Clamp` | src/Optimizers/JpegOptimizer.php:53 | `max(lo, min(hi, v))` lies in the range, is `v` inside it and the nearer bound outside it |
| `Optimizers.Optimizer.SetQuality` | src/Optimizers/JpegOptimizer.php:51-55 | the new configuration is the old with quality clamped into 0..100; the run state is unchanged and validity kept |
| `Optimizers.Optimizer.SetStripAll` | src/Optimizers/JpegOptimizer.php:57-61 | only the strip flag changes |
| `Optimizers.Optimizer.SetProgressive` | src/Optimizers/JpegOptimizer.php:63-67 | only the progressive flag changes |
| `Optimizers.ClampingSetters` | src/Optimizers/PngOptimizer.php:93-103 | quality lands in 0..100 and speed in 1..10, in-range values are kept as given, out-of-range ones go to the nearer bound, and no other field changes |
| `Optimizers.Optimizer.JpegCommand` | src/Optimizers/JpegOptimizer.php:16-49 | the command the loop builds is `JpegArgv` of the current binary, settings, options and overwrite flag |
| `JpegCommands.JpegArgvLayout` | src/Optimizers/JpegOptimizer.php:16-49 | binary first, then the fixed flags, then the options, then the source; `--dest=<dirname>` comes last exactly when overwrite is off and the destination differs from the source |
| `JpegCommands.JpegFlagsPresence` | src/Optimizers/JpegOptimizer.php:20-30 | `--max=q` is present iff quality is non-zero, `--strip-all` iff stripping, `--all-progressive` iff progressive, in that order and with no other flag |
| `JpegCommands.JpegOverwriteIgnoresDestination` | src/Optimizers/JpegOptimizer.php:42-46 | with overwrite on, the command is the same for every destination and ends with the source |
| `JpegCommands.JpegExample` | src/Optimizers/JpegOptimizer.php:18-42 | quality 90 with stripping and no progressive flag gives exactly `[binary, --max=90, --strip-all, source]` |
| `OptionFlags.LongOptionsShape` | src/Optimizers/JpegOptimizer.php:32-40 | the long form has one argument per option not set to false, each starting with `--` |
| `OptionFlags.LongOptionsConcat` | src/Optimizers/JpegOptimizer.php:32-40 | rendering distributes over concatenation, so the arguments follow the array order |
| `OptionFlags.LongOptionAt` | src/Optimizers/PngOptimizer.php:42-50 | the k-th option's argument sits between those of the options before and after it |
| `Optimizers.Optimizer.AppendLongOptions` | src/Optimizers/JpegOptimizer.php:32-40 | the loop appends exactly the long form of the options |
| `OptionFlags.ShortOptionsShape` | src/Optimizers/PngOptimizer.php:62-64 | the short form has exactly one argument per option, `-` followed by name and value |
| `OptionFlags.ShortOptionsConcat` | src/Optimizers/PngOptimizer.php:76-78 | short-form rendering distributes over concatenation |
| `Optimizers.Optimizer.AppendShortOptions` | src/Optimizers/PngOptimizer.php:62-64 | the loop appends exactly the short form of the options |
| `PngCommands.PngDefaultBinary` | src/Optimizers/PngOptimizer.php:11-19 | optipng and pngcrush map to their binaries under /usr/bin, every other name to pngquant's |
| `PngCommands.PngArgv` | src/Optimizers/PngOptimizer.php:21-28 | the dispatch fails exactly for a name other than the three backends, and then with UnhandledMatch of that name |
| `Optimizers.Optimizer.GetCommand` | src/Optimizers/PngOptimizer.php:21-28 | the command built equals `CommandFor` the current configuration, for both backends |
| `Optimizers.Optimizer.PngquantCommand` | src/Optimizers/PngOptimizer.php:30-56 | the command the method builds is `PngquantArgv` of the current state |
| `PngCommands.PngquantLayout` | src/Optimizers/PngOptimizer.php:30-56 | binary first, `--quality=` when non-zero, `--speed=` whenever speed is in 1..10, the options, `--output=<destination>`, then the source; the length follows |
| `Optimizers.Optimizer.OptipngCommand` | src/Optimizers/PngOptimizer.php:58-70 | the command the method builds is `OptipngArgv` of the current state |
| `PngCommands.OptipngLayout` | src/Optimizers/PngOptimizer.php:58-70 | `[binary, -o2, -strip, all]`, one short option per entry, `-out=<destination>`, then the source |
| `Optimizers.Optimizer.PngcrushCommand` | src/Optimizers/PngOptimizer.php:72-84 | the command the method builds is `PngcrushArgv` of the current state |
| `PngCommands.PngcrushLayout` | src/Optimizers/PngOptimizer.php:72-84 | the binary, one short option per entry, then source and destination as the last two arguments |
| `Optimizers.Optimizer.SetOptimizer` | src/Optimizers/PngOptimizer.php:86-91 | the new configuration is `WithTool` of the old; the run state is unchanged |
| `Optimizers.SetOptimizerResetsBinary` | src/Optimizers/PngOptimizer.php:86-91 | choosing a backend replaces the binary by that backend's default, pngquant's for an unknown name, and keeps quality, speed, options and overwrite |
| `Optimizers.Optimizer.SetSpeed` | src/Optimizers/PngOptimizer.php:99-103 | the new configuration has speed clamped into 1..10; nothing else changes |
| `ImageOptimizers.ImageOptimizer.constructor` | src/ImageOptimizer.php:13-29 | the facade's configuration is the built-in defaults with the user's array `array_merge`d over them |
| `ImageOptimizers.MergeWellFormed` | src/ImageOptimizer.php:28 | merging two well-formed configuration arrays yields one |
| `ImageOptimizers.ShallowConfigMerge` | src/ImageOptimizer.php:26-29 | a backend section named by the user replaces the built-in one whole; an unnamed one stays built in |
| `ImageOptimizers.DispatchRule` | src/ImageOptimizer.php:59-67 | JPEG iff the extension is jpg/jpeg or the MIME type contains "jpeg"; PNG iff not JPEG and the extension is png or the MIME type contains "png"; unsupported otherwise |
| `PhpStrings.ContainsIffOccurs` | src/ImageOptimizer.php:60-62 | `str_contains` holds exactly when the needle occurs at some position |
| `ImageOptimizers.UnsupportedImage` | src/ImageOptimizer.php:64-66 | an image of neither type fails with "Unsupported image type: ext (mime)" and becomes a failed batch entry |
| `ImageOptimizers.GifIsUnsupported` | src/ImageOptimizer.php:64-66 | a gif with MIME type image/gif becomes a failed batch entry with message "Unsupported image type: gif (image/gif)" |
| `ImageOptimizers.OptimizerFor` | src/ImageOptimizer.php:54-68 | a successful lookup means the path's type was detected and the optimizer is of that kind, with overwrite on |
| `ImageOptimizers.ImageOptimizer.GetOptimizerForImage` | src/ImageOptimizer.php:54-68 | the method fails exactly as `OptimizerFor` does, and otherwise returns a fresh optimizer holding its configuration |
| `ImageOptimizers.Configure` | src/ImageOptimizer.php:73-98 | applying a section gives an optimizer of the requested kind with overwrite on, valid for a well-formed section; every failure is a TypeError |
| `ImageOptimizers.CreateSpec` | src/ImageOptimizer.php:70-102 | a created optimizer has the requested kind and overwrite on; creation raises an OptimizationException exactly when the backend's default binary is unusable, and then the missing-binary one; any other failure is a TypeError |
| `ImageOptimizers.JpegCreationChecksJpegoptim` | src/ImageOptimizer.php:70-82 | a JPEG optimizer fails to be created, with a missing-binary exception for jpegoptim, exactly when jpegoptim is unusable; otherwise it is configured from the `jpeg` section |
| `ImageOptimizers.ConfigureDefaults` | src/ImageOptimizer.php:73-95 | an empty section gives quality 85, stripping and progressive on, with jpegoptim's binary, for JPEG; pngquant with quality 80 and speed 3, with pngquant's binary, for PNG; no extra options, overwrite on |
| `ImageOptimizers.ConfigureJpeg` | src/ImageOptimizer.php:73-82 | configuring succeeds exactly when every set key is accepted by its setter; quality is the section's clamped into 0..100, else 85; strip_all and progressive are the section's, else true; an `options` array becomes the extra options |
| `ImageOptimizers.ConfigurePng` | src/ImageOptimizer.php:90-99 | configuring succeeds exactly when every set key is accepted; the backend is the section's, else pngquant, with that backend's default binary; quality clamped into 0..100, else 80; speed clamped into 1..10, else 3; an `options` array becomes the extra options |
| `ImageOptimizers.ImageOptimizer.CreateJpegOptimizer` | src/ImageOptimizer.php:70-85 | fails exactly as `CreateSpec` for JPEG does; otherwise a fresh valid optimizer with its configuration |
| `ImageOptimizers.ImageOptimizer.CreatePngOptimizer` | src/ImageOptimizer.php:87-102 | fails exactly as `CreateSpec` for PNG does; otherwise a fresh valid optimizer with its configuration |
| `ImageOptimizers.PngCreationChecksPngquant` | src/ImageOptimizer.php:87-95 | a PNG optimizer fails to be created, with a missing-binary exception for pngquant, exactly when pngquant is unusable, whatever backend the section names; otherwise it is configured from the `png` section, and any failure is a TypeError |
| `ImageOptimizers.DefaultsMatchFallbacks` | src/ImageOptimizer.php:13-24 | configuring from the built-in section with the user's keys merged over it equals configuring from the user's keys alone |
| `ImageOptimizers.ConfigureCongruent` | src/ImageOptimizer.php:73-98 | two sections that agree on every setting read (after fallbacks) and on `options` configure the same optimizer |
| `PhpValues.Lookup` | src/ImageOptimizer.php:76-78 | `$a[k] ?? d` and `isset` see a value exactly when the key is present and not null |
| `PhpValues.CoercionAcceptsOwnType` | src/ImageOptimizer.php:76-78 | an argument of the parameter's own type, or an integer written as a decimal string with or without a leading `+`, reaches the typed setter unchanged |
| `PhpValues.CoercionFailures` | src/ImageOptimizer.php:110 | only null and arrays are refused by bool and string parameters; both are refused by int parameters |
| `PhpStrings.ParseIntOfIntToString` | src/ImageOptimizer.php:76 | reading back the decimal text of an integer gives that integer |
| `ImageOptimizers.ApplyOption` | src/ImageOptimizer.php:108-110 | a recognised key's setter fails exactly when PHP refuses the value for its parameter type, with a TypeError naming the key; otherwise it stores the coerced value in its own setting (quality clamped into 0..100, speed into 1..10, and a backend name also resets the binary to that backend's default) and changes nothing else |
| `ImageOptimizers.ApplyKeys` | src/ImageOptimizer.php:104-121 | applying the recognised keys in order keeps kind, options and overwrite and validity; failures are TypeErrors |
| `ImageOptimizers.InvokeSetter` | src/ImageOptimizer.php:109-110 | the dynamic setter call changes the optimizer as `ApplyOption` says, or reports its failure, and touches nothing else |
| `ImageOptimizers.ImageOptimizer.ApplyOptions` | src/ImageOptimizer.php:104-121 | the loop succeeds exactly when `ApplyOptionsSpec` does and leaves the optimizer in its configuration; the run state is untouched |
| `ImageOptimizers.IgnoredOptions` | src/ImageOptimizer.php:104-121 | keys absent or null in the call options change nothing |
| `ImageOptimizers.OnlyRecognisedKeysMatter` | src/ImageOptimizer.php:104-121 | two option arrays that agree on the recognised keys have the same effect |
| `ImageOptimizers.SnakeCaseOptionIgnored` | src/ImageOptimizer.php:107 | a call option `strip_all` leaves a JPEG optimizer unchanged |
| `ImageOptimizers.EmptyOptionsChangeNothing` | src/ImageOptimizer.php:35-37 | empty call options leave the optimizer unchanged |
| `ImageOptimizers.JpegCallOptionsWin` | src/ImageOptimizer.php:106-112 | on a JPEG optimizer the call options succeed exactly when every set one is accepted; then quality, stripAll and progressive are each the option's value (quality clamped) or unchanged when unset, and nothing else changes |
| `ImageOptimizers.PngCallOptionsWin` | src/ImageOptimizer.php:113-119 | on a PNG optimizer the call options succeed exactly when every set one is accepted; then quality and speed are the option's value clamped, or unchanged; an `optimizer` option sets the backend and its default binary; nothing else changes |
| `ImageOptimizers.CallQualityWins` | src/ImageOptimizer.php:33-37 | an integer quality given in the call decides the final quality, clamped, whatever the configuration said |
| `ImageOptimizers.Prepared` | src/ImageOptimizer.php:33-37 | a prepared optimizer is of the detected kind and overwrites in place |
| `ImageOptimizers.FacadeOverwritesInPlace` | src/ImageOptimizer.php:31-40 | without a destination the facade's run writes to the source itself and renames nothing |
| `ImageOptimizers.Attempt` | src/ImageOptimizer.php:39-51 | a recorded attempt is a success with no error, the given paths, the source's size and the optimizer's class; it fails exactly when the run does, with the run's failure |
| `ImageOptimizers.AttemptFigures` | src/ImageOptimizer.php:39-51 | ratio 0 for an empty source; otherwise percentage × original = 100 × saved bytes, except that an empty backend output reports the original size with ratio 1 |
| `ImageOptimizers.OptimizeSpec` | src/ImageOptimizer.php:31-52 | a successful result records success, the given paths, the source's size and the class of the detected kind |
| `ImageOptimizers.OptimizeIsAttempt` | src/ImageOptimizer.php:31-52 | a successful optimisation is the attempt of the prepared optimizer |
| `ImageOptimizers.ImageOptimizer.Optimize` | src/ImageOptimizer.php:31-52 | the method returns exactly `OptimizeSpec` of the facade's configuration |
| `ImageOptimizers.UnknownToolEscapesBatch` | src/ImageOptimizer.php:127-141 | a configured PNG backend outside the three known ones fails with UnhandledMatch, and the batch does not catch it |
| `ImageOptimizers.BatchEntryShape` | src/ImageOptimizer.php:128-141 | an entry is the result of `optimize` with no destination when that succeeds; an OptimizationException becomes a failed result carrying its message, with equal sizes, no savings, 0 % and no class; any other failure escapes unchanged |
| `ImageOptimizers.ImageOptimizer.OptimizeEntry` | src/ImageOptimizer.php:128-141 | one iteration returns exactly `BatchEntry` |
| `ImageOptimizers.CollectShape` | src/ImageOptimizer.php:123-145 | the collection succeeds iff every entry does, then has one result per input in order; a failure is that of the first failing entry |
| `ImageOptimizers.CollectErrorPersists` | src/ImageOptimizer.php:123-145 | once a prefix fails, the whole run ends with that failure |
| `ImageOptimizers.BatchShape` | src/ImageOptimizer.php:123-145 | the batch returns one entry per path in order iff no entry escapes; otherwise it ends with the failure of the first path whose entry escapes, which is never an OptimizationException |
| `ImageOptimizers.ImageOptimizer.BatchOptimize` | src/ImageOptimizer.php:123-145 | the loop returns exactly `BatchSpec` of the facade's configuration |
| `Results.OptimizationResult.SavedBytes` | src/OptimizationResult.php:18-21 | saved bytes plus optimized size is the original size, negative exactly when the file grew |
| `Results.ToArrayShape` | src/OptimizationResult.php:28-42 | the array has the ten keys in their order, all distinct, with saved bytes and percentage derived from the fields |
| `Results.ToArrayFields` | src/OptimizationResult.php:28-42 | each of the eight stored fields is found under its snake-case key |
| `Results.ToArrayRoundTrip` | src/OptimizationResult.php:7-42 | reading the array back gives the original result |

## Left out

- Running processes and the filesystem (Symfony `Process`, `filesize`, `tempnam`, `rename`, `file_exists`, `is_executable`, `mime_content_type`) are outside the model: a `Host` value answers them as oracle functions. A run's effect on the filesystem is reported as data, the path renamed over the source.
- A process run that throws is not modelled: Symfony's default 60-second timeout (`ProcessTimedOutException`, since `BaseOptimizer::optimize` passes no timeout) or a failed `proc_open`. Such an exception is neither the `ProcessFailedException` that `optimize` catches nor an `OptimizationException`, so it escapes `optimize` and ends `batchOptimize`. `Host.run` always returns an outcome.
- `tempnam` returning `false` is not modelled: the temporary name is always a string. In PHP it would reach `getCommand` as `""`, giving a jpegoptim argument `--dest=`.
- The host is the same for every entry of a batch: file sizes do not change between entries.
- `mime_content_type` returning `false` is not modelled; the MIME type is always a string.
- Floating point: the compression ratio and percentage are exact reals with no IEEE rounding.
- `pathinfo` and `dirname` are modelled for plain `/`-separated paths. Trailing or repeated slashes, the root directory and Windows separators are not handled as PHP does.
- Arrays have string keys only. Integer keys, and the renumbering `array_merge` applies to them, are not modelled.
- Argument coercion: only booleans, integers, decimal integer strings with an optional `+` or `-` sign, and strings are modelled. Surrounding whitespace, float strings, floats, leading-numeric strings and objects are not. Anything outside that set given to an `int` parameter is a TypeError.
- PHP's 64-bit integer bounds are not modelled; sizes and settings are unbounded integers.
- The error code and the previous exception passed to `OptimizationException`, and the message text of Symfony's `ProcessFailedException`, are not modelled. The process's failure message is an oracle value.
- The `OptimizerInterface` contract and the fluent `return $this` of the setters are not modelled: setters are methods without a result, on the same object.
- `ImageOptimizer::$optimizers` is never read or written by the library, and is not modelled.
- `ImageOptimizers.ImageOptimizer.Optimize` returns the result only. The rename over the source, which `Optimizers.Optimizer.Optimize` reports, is dropped, because no filesystem state is modelled.
- `ImageOptimizers.ImageOptimizer.ApplyOptions`: after a TypeError the optimizer's state is left unspecified. An earlier setter may already have applied, but PHP discards the object as the error propagates.
- `ImageOptimizers.GifIsUnsupported`: takes the lower-cased extension `gif` as a hypothesis instead of computing it from a concrete path.
- `Optimizers.Optimizer.GetOptimizedSize` and `Optimizers.Optimizer.GetCompressionRatio` have no contract of their own; `AttemptFigures` and `CompressionRatio` state their properties.
