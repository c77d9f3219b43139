/**
 * The command-line record of create_index and the two decision chains that
 * turn its `--metric` flag into a metric kind and a scalar kind, together
 * with the index options that `setup_store` actually builds.
 */
module Flags {

  /** The parsed command line: `--input`, `--output`, `--vector-length`, `--metric`, `--scalar`. */
  datatype Args = Args(input: string, output: string, vectorLength: nat, metric: string, scalar: string)

  /** The command line with every optional flag at its default value. */
  function DefaultArgs(input: string): Args
  {
    Args(input, "index.usearch", 192, "cos", "f32")
  }

  /** The metric kinds the program names. */
  datatype MetricKind = Cos | IP

  /** The scalar kinds the program names. */
  datatype ScalarKind = F16 | F32 | F64 | I8 | B1

  /** The usearch index configuration built in `setup_store`. */
  datatype IndexOptions = IndexOptions(
    dimensions: nat,
    metric: MetricKind,
    quantization: ScalarKind,
    connectivity: nat,
    expansionAdd: nat,
    expansionSearch: nat,
    multi: bool)

  // ---------------------------------------------------------------------
  // Lower-casing

  /** Lower-cases one character; only the ASCII capitals change. */
  function LowerChar(c: char): char
  {
    if 'A' <= c <= 'Z' then (c as int + 32) as char else c
  }

  /** Upper-cases one character; only the ASCII small letters change. */
  function UpperChar(c: char): char
  {
    if 'a' <= c <= 'z' then (c as int - 32) as char else c
  }

  /** `str::to_lowercase`, restricted to ASCII: the result has no capital left. */
  function ToLower(s: string): (r: string)
    ensures |r| == |s|
    ensures HasNoCapital(r)
  {
    seq(|s|, i requires 0 <= i < |s| => LowerChar(s[i]))
  }

  /** A word that lower-casing leaves alone: it has no ASCII capital. */
  predicate HasNoCapital(w: string)
  {
    forall i :: 0 <= i < |w| ==> !('A' <= w[i] <= 'Z')
  }

  /**
   * `s` spells `w` when each character of `s` is either the character of `w`
   * or its capital: the reference meaning of a case-insensitive comparison.
   */
  predicate SpellsIgnoringCase(s: string, w: string)
  {
    |s| == |w| && forall i :: 0 <= i < |s| ==> s[i] == w[i] || s[i] == UpperChar(w[i])
  }

  lemma LowerCharIs(c: char, x: char)
    requires !('A' <= x <= 'Z')
    ensures LowerChar(c) == x <==> c == x || c == UpperChar(x)
  {
  }

  /** Comparing the lower-cased flag with a word without capitals is a case-insensitive comparison. */
  lemma {:induction false} ToLowerEquals(s: string, w: string)
    requires HasNoCapital(w)
    ensures ToLower(s) == w <==> SpellsIgnoringCase(s, w)
  {
    if |s| == |w| {
      if ToLower(s) == w {
        forall i | 0 <= i < |s| ensures s[i] == w[i] || s[i] == UpperChar(w[i]) {
          assert ToLower(s)[i] == LowerChar(s[i]);
          LowerCharIs(s[i], w[i]);
        }
      }
      if SpellsIgnoringCase(s, w) {
        forall i | 0 <= i < |s| ensures ToLower(s)[i] == w[i] {
          LowerCharIs(s[i], w[i]);
        }
      }
    }
  }

  // ---------------------------------------------------------------------
  // Args::metric_kind and Args::scalar_kind

  /** `Args::metric_kind`: "cos" in any case gives cosine, anything else inner product. */
  function MetricKindOf(args: Args): (k: MetricKind)
    ensures |args.metric| != 3 ==> k == IP
  {
    if ToLower(args.metric) == "cos" then Cos else IP
  }

  /** The if-chain of `Args::scalar_kind`, applied to whichever flag it is given. */
  function ScalarKindFromFlag(flag: string): (k: ScalarKind)
    ensures |flag| > 3 ==> k == F32
  {
    var m := ToLower(flag);
    if m == "f16" || m == "16" then F16
    else if m == "f64" || m == "64" then F64
    else if m == "b1" || m == "1" then B1
    else if m == "i8" || m == "8" then I8
    else F32
  }

  /** `Args::scalar_kind` as written: it lower-cases the METRIC flag. */
  function ScalarKindOf(args: Args): (k: ScalarKind)
    ensures |args.metric| > 3 ==> k == F32
  {
    ScalarKindFromFlag(args.metric)
  }

  /** `Args::scalar_kind` as evidently intended: it reads the scalar flag. */
  function IntendedScalarKind(args: Args): (k: ScalarKind)
    ensures |args.scalar| > 3 ==> k == F32
  {
    ScalarKindFromFlag(args.scalar)
  }

  /** The options `setup_store` builds: only the vector length is taken from the command line. */
  function OptionsFor(args: Args): IndexOptions
  {
    IndexOptions(args.vectorLength, Cos, F32, 0, 0, 0, false)
  }

  // ---------------------------------------------------------------------
  // Properties

  /** The metric kind is cosine exactly for the spellings of "cos" and inner product for every other flag. */
  lemma MetricKindSpellings(args: Args)
    ensures MetricKindOf(args) == Cos <==> SpellsIgnoringCase(args.metric, "cos")
    ensures MetricKindOf(args) == IP <==> !SpellsIgnoringCase(args.metric, "cos")
  {
    ToLowerEquals(args.metric, "cos");
  }

  /** Each scalar kind answers exactly the spellings of its two flag words; F32 answers all others. */
  lemma ScalarKindSpellings(flag: string)
    ensures ScalarKindFromFlag(flag) == F16 <==> SpellsIgnoringCase(flag, "f16") || SpellsIgnoringCase(flag, "16")
    ensures ScalarKindFromFlag(flag) == F64 <==> SpellsIgnoringCase(flag, "f64") || SpellsIgnoringCase(flag, "64")
    ensures ScalarKindFromFlag(flag) == B1 <==> SpellsIgnoringCase(flag, "b1") || SpellsIgnoringCase(flag, "1")
    ensures ScalarKindFromFlag(flag) == I8 <==> SpellsIgnoringCase(flag, "i8") || SpellsIgnoringCase(flag, "8")
    ensures ScalarKindFromFlag(flag) == F32 <==>
      !(SpellsIgnoringCase(flag, "f16") || SpellsIgnoringCase(flag, "16") ||
        SpellsIgnoringCase(flag, "f64") || SpellsIgnoringCase(flag, "64") ||
        SpellsIgnoringCase(flag, "b1") || SpellsIgnoringCase(flag, "1") ||
        SpellsIgnoringCase(flag, "i8") || SpellsIgnoringCase(flag, "8"))
  {
    ToLowerEquals(flag, "f16");
    ToLowerEquals(flag, "16");
    ToLowerEquals(flag, "f64");
    ToLowerEquals(flag, "64");
    ToLowerEquals(flag, "b1");
    ToLowerEquals(flag, "1");
    ToLowerEquals(flag, "i8");
    ToLowerEquals(flag, "8");
  }

  /** As written, the scalar kind never depends on the scalar flag. */
  lemma ScalarKindIgnoresScalarFlag(args: Args, scalar: string)
    ensures ScalarKindOf(args.(scalar := scalar)) == ScalarKindOf(args)
  {
  }

  /** As written, any spelling of the metric "cos" (the default) gives F32, whatever the scalar flag says. */
  lemma CosineMetricGivesF32(args: Args)
    requires SpellsIgnoringCase(args.metric, "cos")
    ensures ScalarKindOf(args) == F32
  {
    ToLowerEquals(args.metric, "cos");
  }

  /** The discrepancy: `--scalar f16` with the default metric yields F32 as written and F16 as intended. */
  lemma ScalarFlagHasNoEffect(input: string)
    ensures ScalarKindOf(DefaultArgs(input).(scalar := "f16")) == F32
    ensures IntendedScalarKind(DefaultArgs(input).(scalar := "f16")) == F16
  {
    ScalarKindSpellings("f16");
  }

  /** The corrected reading follows the scalar flag and is independent of the metric flag. */
  lemma IntendedScalarKindFollowsScalarFlag(args: Args, metric: string)
    ensures IntendedScalarKind(args.(metric := metric)) == IntendedScalarKind(args)
    ensures IntendedScalarKind(args) == F16 <==> SpellsIgnoringCase(args.scalar, "f16") || SpellsIgnoringCase(args.scalar, "16")
    ensures IntendedScalarKind(args) == F64 <==> SpellsIgnoringCase(args.scalar, "f64") || SpellsIgnoringCase(args.scalar, "64")
    ensures IntendedScalarKind(args) == B1 <==> SpellsIgnoringCase(args.scalar, "b1") || SpellsIgnoringCase(args.scalar, "1")
    ensures IntendedScalarKind(args) == I8 <==> SpellsIgnoringCase(args.scalar, "i8") || SpellsIgnoringCase(args.scalar, "8")
  {
    ScalarKindSpellings(args.scalar);
  }

  /** The index is always cosine over F32 with automatic tuning, whatever `--metric` and `--scalar` say. */
  lemma OptionsIgnoreFlags(args: Args, metric: string, scalar: string)
    ensures OptionsFor(args.(metric := metric, scalar := scalar)) == OptionsFor(args)
    ensures OptionsFor(args).dimensions == args.vectorLength
    ensures OptionsFor(args).metric == Cos && OptionsFor(args).quantization == F32
    ensures OptionsFor(args).connectivity == 0 && OptionsFor(args).expansionAdd == 0 && OptionsFor(args).expansionSearch == 0
    ensures !OptionsFor(args).multi
  {
  }

  /** `--metric ip` selects inner product in `metric_kind`, yet the index is built for cosine. */
  lemma MetricFlagNotApplied(input: string)
    ensures MetricKindOf(DefaultArgs(input).(metric := "ip")) == IP
    ensures OptionsFor(DefaultArgs(input).(metric := "ip")).metric == Cos
  {
    MetricKindSpellings(DefaultArgs(input).(metric := "ip"));
  }
}
