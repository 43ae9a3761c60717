/** allpixAnalysis.py: the threshold scan with cross-talk applied when
    either coefficient is positive, the scaling of the efficiency histogram
    by the number of simulated events, and the command-line handling that
    chooses the input file and the two cross-talk coefficients. */
module AllpixAnalysis {
  import opened Wrappers
  import opened StripCharges
  import opened ThresholdScan

  /** `RunAnalysis` after the input has been opened: `events` is the
      `PixelCharge` tree, `nOfStrips` and `nOfEvents` the values read from
      the file's model and configuration. Cross-talk is applied when either
      coefficient is positive. */
  method RunAnalysis(events: seq<Event>, nOfStrips: nat, nOfEvents: nat, crosstalkSide: real, crosstalkBack: real)
    returns (r: Result<Histograms, Error>)
    requires AllAddressable(events, nOfStrips)
    ensures r.Failure? <==> nOfEvents == 0
    ensures r.Failure? ==> r.error == ZeroDivision
    ensures r.Success? ==> Describes(r.value, events, nOfStrips, nOfEvents, crosstalkSide, crosstalkBack, EitherPositive)
  {
    r := Sweep(events, nOfStrips, nOfEvents, crosstalkSide, crosstalkBack, EitherPositive);
  }

  /** With both coefficients zero the script skips the cross-talk branch:
      the adjusted array is the dense one. */
  lemma NoCrossTalkByDefault(hits: Event, n: nat)
    requires Addressable(hits, n)
    ensures Adjusted(hits, n, 0.0, 0.0, EitherPositive) == Dense(hits, n)
  {
  }

  /** What the script goes on to do with its arguments. */
  datatype Invocation =
    | Usage                                            // the usage message, nothing else
    | Analyse(inputName: string, crosstalkSide: real, crosstalkBack: real)

  /** A coefficient as the script keeps it: the parsed value when it parses
      and lies in [0, 1], else 0.0. `None` stands for the `ValueError` of
      `float(...)`. */
  function Coerce(parsed: Option<real>): (c: real)
    ensures 0.0 <= c <= 1.0
    ensures parsed.Some? && 0.0 <= parsed.value <= 1.0 ==> c == parsed.value
    ensures parsed.None? || parsed.value < 0.0 || parsed.value > 1.0 ==> c == 0.0
  {
    if parsed.None? || parsed.value < 0.0 || parsed.value > 1.0 then 0.0 else parsed.value
  }

  /** The value a flag holds after the argument loop has looked at the first
      `upto` positions: the coerced argument after the last occurrence of
      the flag among them, or the default 0.0. */
  function FlagValue(args: seq<string>, flag: string, parse: string -> Option<real>, upto: nat): (v: real)
    requires upto < |args|
    ensures 0.0 <= v <= 1.0
  {
    if upto == 0 then 0.0
    else if args[upto - 1] == flag then Coerce(parse(args[upto]))
    else FlagValue(args, flag, parse, upto - 1)
  }

  /** Without an occurrence of the flag the default 0.0 stays. */
  lemma {:induction false} FlagValueDefault(args: seq<string>, flag: string, parse: string -> Option<real>, upto: nat)
    requires upto < |args|
    requires forall j :: 0 <= j < upto ==> args[j] != flag
    ensures FlagValue(args, flag, parse, upto) == 0.0
  {
    if upto > 0 {
      FlagValueDefault(args, flag, parse, upto - 1);
    }
  }

  /** The last occurrence of the flag wins. */
  lemma {:induction false} FlagValueLastOccurrence(args: seq<string>, flag: string, parse: string -> Option<real>, upto: nat, j: nat)
    requires j < upto < |args| && args[j] == flag
    requires forall l :: j < l < upto ==> args[l] != flag
    ensures FlagValue(args, flag, parse, upto) == Coerce(parse(args[j + 1]))
  {
    if j < upto - 1 {
      FlagValueLastOccurrence(args, flag, parse, upto - 1, j);
    }
  }

  predicate IsFlag(arg: string)
  {
    arg == "--side" || arg == "--back"
  }

  /** The module-level code of the script, with `float` given as `parse`.
      An argument list ending in a flag makes the loop read past the end:
      an `IndexError` that nothing catches. */
  method ParseArguments(args: seq<string>, parse: string -> Option<real>) returns (r: Result<Invocation, Error>)
    ensures r.Success? && r.value.Usage? <==> !(|args| == 1 || |args| == 3 || |args| == 5)
    ensures r.Failure? <==> (|args| == 1 || |args| == 3 || |args| == 5) && IsFlag(args[|args| - 1])
    ensures r.Failure? ==> r.error == IndexError
    ensures r.Success? && r.value.Analyse? ==>
      && r.value.inputName == args[0]
      && r.value.crosstalkSide == FlagValue(args, "--side", parse, |args| - 1)
      && r.value.crosstalkBack == FlagValue(args, "--back", parse, |args| - 1)
  {
    if |args| == 0 || |args| > 5 || |args| % 2 != 1 {
      return Success(Usage);
    }
    var crosstalkSide, crosstalkBack := 0.0, 0.0;
    var inputName := args[0];
    for i := 0 to |args|
      invariant crosstalkSide == FlagValue(args, "--side", parse, if i < |args| then i else |args| - 1)
      invariant crosstalkBack == FlagValue(args, "--back", parse, if i < |args| then i else |args| - 1)
      invariant i == |args| ==> !IsFlag(args[|args| - 1])
    {
      if IsFlag(args[i]) && i + 1 == |args| {
        return Failure(IndexError);
      }
      if args[i] == "--side" {
        crosstalkSide := Coerce(parse(args[i + 1]));
      }
      if args[i] == "--back" {
        crosstalkBack := Coerce(parse(args[i + 1]));
      }
    }
    r := Success(Analyse(inputName, crosstalkSide, crosstalkBack));
  }
}
