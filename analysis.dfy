/** Analysis.py: the same threshold scan as allpixAnalysis.py, with
    cross-talk applied only when both coefficients are positive, and the
    output-file name and histogram titles derived from the names passed
    in. */
module Analysis {
  import opened Wrappers
  import opened Text
  import opened StripCharges
  import opened ThresholdScan

  /** The `outputName` argument. The script tests `outputName == 0`, which
      in Python 3 holds only for the integer 0, never for a string (not even
      the default ""). */
  datatype OutputArg = Name(name: string) | ZeroLiteral

  /** `inputName.split("_")[0] + "_analysed.root"`: the name both analysis
      scripts derive from the input's name. It keeps the input's prefix
      before the first "_" and ends in "_analysed.root". */
  function DerivedName(inputName: string): (r: string)
    ensures BeforeFirst(r, '_') == BeforeFirst(inputName, '_')
    ensures |r| >= 14 && r[|r| - 14..] == "_analysed.root"
  {
    var prefix := BeforeFirst(inputName, '_');
    BeforeFirstOfJoin(prefix, '_', "analysed.root");
    assert prefix + "_analysed.root" == prefix + ['_'] + "analysed.root";
    prefix + "_analysed.root"
  }

  /** The output-file name the script writes to: the derived name only for
      the integer 0, whatever string is passed otherwise. */
  function OutputName(inputName: string, outputName: OutputArg): (r: string)
    ensures outputName.Name? ==> r == outputName.name
    ensures outputName.ZeroLiteral? ==> r == DerivedName(inputName)
  {
    match outputName
    case Name(name) => name
    case ZeroLiteral => DerivedName(inputName)
  }

  /** The name is empty only when the caller passes "": a string argument
      is never replaced, and the derived name is never empty. */
  lemma EmptyNameOnlyWhenGiven(inputName: string, outputName: OutputArg)
    ensures OutputName(inputName, outputName) == "" <==> outputName == Name("")
  {
  }

  /** `"Efficiency - " + outputName.split("_")[0]`: the fixed head, then
      the longest start of the name without "_". */
  function EfficiencyTitle(outputName: string): (r: string)
    ensures |r| >= 13 && r[..13] == "Efficiency - "
    ensures var tag := r[13..];
      && '_' !in tag && |tag| <= |outputName| && tag == outputName[..|tag|]
      && (|tag| < |outputName| ==> outputName[|tag|] == '_')
  {
    var r := "Efficiency - " + BeforeFirst(outputName, '_');
    assert r[13..] == BeforeFirst(outputName, '_');
    r
  }

  /** `"Cluster Size - " + outputName.split("_")[0]`: the fixed head, then
      the longest start of the name without "_". */
  function ClusterTitle(outputName: string): (r: string)
    ensures |r| >= 15 && r[..15] == "Cluster Size - "
    ensures var tag := r[15..];
      && '_' !in tag && |tag| <= |outputName| && tag == outputName[..|tag|]
      && (|tag| < |outputName| ==> outputName[|tag|] == '_')
  {
    var r := "Cluster Size - " + BeforeFirst(outputName, '_');
    assert r[15..] == BeforeFirst(outputName, '_');
    r
  }

  /** With a derived name both titles carry the input's prefix; with the
      default "" the name stays empty and the titles carry nothing after
      the dash. */
  lemma TitlesFollowNames(inputName: string)
    ensures EfficiencyTitle(OutputName(inputName, ZeroLiteral)) == "Efficiency - " + BeforeFirst(inputName, '_')
    ensures ClusterTitle(OutputName(inputName, ZeroLiteral)) == "Cluster Size - " + BeforeFirst(inputName, '_')
    ensures OutputName(inputName, Name("")) == ""
    ensures EfficiencyTitle(OutputName(inputName, Name(""))) == "Efficiency - "
    ensures ClusterTitle(OutputName(inputName, Name(""))) == "Cluster Size - "
  {
  }

  /** The script's results: the output name, the two titles and the
      histograms. */
  datatype Output = Output(outputName: string, effTitle: string, clusTitle: string, histograms: Histograms)

  /** `RunAnalysis` after the input has been opened: `events` is the
      `PixelCharge` tree, `nOfStrips` and `nOfParts` the values read from
      the file. `scaleXFactor` is 1, so threshold values are used as they
      are. */
  method RunAnalysis(events: seq<Event>, nOfStrips: nat, nOfParts: nat, inputName: string,
                     outputName: OutputArg, ctStS: real, ctStBP: real)
    returns (r: Result<Output, Error>)
    requires AllAddressable(events, nOfStrips)
    ensures r.Failure? <==> nOfParts == 0
    ensures r.Failure? ==> r.error == ZeroDivision
    ensures r.Success? ==>
      && r.value.outputName == OutputName(inputName, outputName)
      && r.value.effTitle == EfficiencyTitle(r.value.outputName)
      && r.value.clusTitle == ClusterTitle(r.value.outputName)
      && Describes(r.value.histograms, events, nOfStrips, nOfParts, ctStS, ctStBP, BothPositive)
  {
    var name := OutputName(inputName, outputName);
    var effTitle := EfficiencyTitle(name);
    var clusTitle := ClusterTitle(name);
    var scan := Sweep(events, nOfStrips, nOfParts, ctStS, ctStBP, BothPositive);
    if scan.Failure? {
      return Failure(scan.error);
    }
    r := Success(Output(name, effTitle, clusTitle, scan.value));
  }

  /** Cross-talk is off as soon as either coefficient is zero: the adjusted
      array is the dense one. */
  lemma EitherZeroSkipsCrossTalk(hits: Event, n: nat, ctStS: real, ctStBP: real)
    requires Addressable(hits, n)
    requires ctStS == 0.0 || ctStBP == 0.0
    ensures Adjusted(hits, n, ctStS, ctStBP, BothPositive) == Dense(hits, n)
  {
  }
}
