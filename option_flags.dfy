/**
 * How the extra-options array becomes command-line arguments. The jpegoptim
 * and pngquant builders use the long form (`--name`, `--name=value`, nothing
 * for false); optipng and pngcrush glue `-`, the name and the value's string
 * form together with no special case for booleans.
 */
module OptionFlags {
  import opened PhpStrings
  import opened PhpArrays
  import opened PhpValues

  /** One option in long form: true gives `--name`, false nothing, any other value `--name=value`. */
  function LongOption(name: string, v: Value): seq<string>
  {
    if v.VBool? then (if v.b then ["--" + name] else [])
    else ["--" + name + "=" + ToPhpString(v)]
  }

  /** All options in long form, in array order. */
  function LongOptions(options: Entries<Value>): seq<string>
  {
    if options == [] then []
    else LongOptions(options[..|options| - 1]) + LongOption(options[|options| - 1].0, options[|options| - 1].1)
  }

  /** One option in short form: `-` followed by the name and the value's string form. */
  function ShortOption(name: string, v: Value): string
  {
    "-" + name + ToPhpString(v)
  }

  /** All options in short form, in array order. */
  function ShortOptions(options: Entries<Value>): seq<string>
  {
    if options == [] then []
    else ShortOptions(options[..|options| - 1]) + [ShortOption(options[|options| - 1].0, options[|options| - 1].1)]
  }

  /** Number of options whose value is `false`, which the long form drops. */
  function FalseCount(options: Entries<Value>): nat
  {
    if options == [] then 0
    else FalseCount(options[..|options| - 1]) + (if options[|options| - 1].1 == VBool(false) then 1 else 0)
  }

  /** Rendering distributes over concatenation, so the order of the array is the order of the arguments. */
  lemma {:induction false} LongOptionsConcat(a: Entries<Value>, b: Entries<Value>)
    ensures LongOptions(a + b) == LongOptions(a) + LongOptions(b)
    decreases |b|
  {
    if b != [] {
      var b' := b[..|b| - 1];
      assert (a + b)[..|a + b| - 1] == a + b';
      LongOptionsConcat(a, b');
    } else {
      assert a + b == a;
    }
  }

  lemma {:induction false} ShortOptionsConcat(a: Entries<Value>, b: Entries<Value>)
    ensures ShortOptions(a + b) == ShortOptions(a) + ShortOptions(b)
    decreases |b|
  {
    if b != [] {
      var b' := b[..|b| - 1];
      assert (a + b)[..|a + b| - 1] == a + b';
      ShortOptionsConcat(a, b');
    } else {
      assert a + b == a;
    }
  }

  /**
   * The long form yields one argument per option except those set to false,
   * and every argument it yields is a `--` flag.
   */
  lemma {:induction false} LongOptionsShape(options: Entries<Value>)
    ensures |LongOptions(options)| == |options| - FalseCount(options)
    ensures forall j :: 0 <= j < |LongOptions(options)| ==> IsPrefix("--", LongOptions(options)[j])
  {
    if options != [] {
      LongOptionsShape(options[..|options| - 1]);
    }
  }

  /** The short form yields exactly one argument per option, each starting with `-`. */
  lemma {:induction false} ShortOptionsShape(options: Entries<Value>)
    ensures |ShortOptions(options)| == |options|
    ensures forall j :: 0 <= j < |options| ==>
              ShortOptions(options)[j] == ShortOption(options[j].0, options[j].1)
  {
    if options != [] {
      ShortOptionsShape(options[..|options| - 1]);
    }
  }

  /** Where the `k`-th option lands in the long form: right after the options before it. */
  lemma LongOptionAt(options: Entries<Value>, k: nat)
    requires k < |options|
    ensures LongOptions(options) ==
              LongOptions(options[..k]) + LongOption(options[k].0, options[k].1) + LongOptions(options[k + 1..])
  {
    var before, at, after := options[..k], [options[k]], options[k + 1..];
    calc {
      LongOptions(options);
      { SplitAround(options, k); }
      LongOptions((before + at) + after);
      { LongOptionsConcat(before + at, after); }
      LongOptions(before + at) + LongOptions(after);
      { LongOptionsConcat(before, at); }
      LongOptions(before) + LongOptions(at) + LongOptions(after);
      { LongOptionSingle(options[k].0, options[k].1); }
      LongOptions(before) + LongOption(options[k].0, options[k].1) + LongOptions(after);
    }
  }

  lemma SplitAround<T>(s: seq<T>, k: nat)
    requires k < |s|
    ensures s == (s[..k] + [s[k]]) + s[k + 1..]
  {
  }

  lemma LongOptionSingle(name: string, v: Value)
    ensures LongOptions([(name, v)]) == LongOption(name, v)
  {
    assert [(name, v)][..0] == [];
  }
}
