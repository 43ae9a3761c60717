/** Run.py: the simulation driver's configuration rewriting. It holds the
    lines of three configuration files (geometry, main configuration,
    sensor model) in lists, rewrites the lines carrying a given key for
    every combination of angle, noise and thickness, and names the output
    file the simulation leaves. */
module Run {
  import opened Wrappers
  import opened Text
  import Analysis
  import Analysis2

  /** Three space-separated components, as an orientation is written. */
  function Triple(a: string, b: string, c: string): string
  {
    a + " " + b + " " + c
  }

  /** An orientation with a value on one axis and "0" on the other two. */
  ghost predicate OneAxis(o: string)
  {
    exists v :: o == Triple(v, "0", "0") || o == Triple("0", v, "0") || o == Triple("0", "0", v)
  }

  /** The orientation `ModifyGeom` derives from an angle tag such as
      "y12deg": the tag, stripped of its axis letter at both ends, on the
      axis the letter names; "0 0 0" for a tag with no axis letter.
      `angle[0]` raises IndexError on an empty tag. The sensor is turned
      about one axis at most: two of the three components are "0". */
  function Orientation(angle: string): (r: string)
    requires angle != []
    ensures OneAxis(r)
  {
    if angle[0] == 'x' then Triple(Strip(angle, 'x'), "0", "0")
    else if angle[0] == 'y' then Triple("0", Strip(angle, 'y'), "0")
    else if angle[0] == 'z' then Triple("0", "0", Strip(angle, 'z'))
    else Triple("0", "0", "0")
  }

  /** An axis letter followed by a value that neither starts nor ends with
      that letter puts exactly that value on the letter's axis. */
  lemma OrientationOfTag(axis: char, value: string)
    requires axis == 'x' || axis == 'y' || axis == 'z'
    requires value != [] ==> value[0] != axis && value[|value| - 1] != axis
    ensures Orientation([axis] + value) ==
      if axis == 'x' then Triple(value, "0", "0")
      else if axis == 'y' then Triple("0", value, "0")
      else Triple("0", "0", value)
  {
    assert StripLeft([axis] + value, axis) == value by {
      assert ([axis] + value)[1..] == value;
    }
    if value != [] {
      assert StripRight(value, axis) == value;
    }
  }

  /** A tag without an axis letter in front leaves the sensor unrotated. */
  lemma OrientationWithoutAxis(angle: string)
    requires angle != [] && angle[0] != 'x' && angle[0] != 'y' && angle[0] != 'z'
    ensures Orientation(angle) == Triple("0", "0", "0")
  {
  }

  /** The line a matching line becomes. */
  function RewriteLine(line: string, key: string, repl: string): string
  {
    if Contains(line, key) then repl else line
  }

  /** Every line containing `key` replaced by `repl`, the others kept.
      When the replacement carries its key, the lines that carry the key
      are the same before and after. */
  function Rewrite(lines: seq<string>, key: string, repl: string): (r: seq<string>)
    ensures |r| == |lines|
    ensures Contains(repl, key) ==>
      forall i :: 0 <= i < |r| ==> (Contains(r[i], key) <==> Contains(lines[i], key))
  {
    seq(|lines|, i requires 0 <= i < |lines| => RewriteLine(lines[i], key, repl))
  }

  /** A replacement that contains its own key is stable: rewriting twice
      is rewriting once. */
  lemma RewriteIdempotent(lines: seq<string>, key: string, repl: string)
    requires Contains(repl, key)
    ensures Rewrite(Rewrite(lines, key, repl), key, repl) == Rewrite(lines, key, repl)
  {
  }

  /** `lines.index(line)`: the first position holding `line`, `None` where
      Python raises ValueError. */
  function IndexOf(lines: seq<string>, line: string): (r: Option<nat>)
    ensures r.Some? ==> r.value < |lines| && lines[r.value] == line
    ensures r.Some? ==> forall i :: 0 <= i < r.value ==> lines[i] != line
    ensures r.None? ==> forall i :: 0 <= i < |lines| ==> lines[i] != line
  {
    if lines == [] then None
    else if lines[0] == line then Some(0)
    else match IndexOf(lines[1..], line)
      case None => None
      case Some(i) => Some(i + 1)
  }

  /** `for line in lines: if key in line: lines[lines.index(line)] = repl`,
      on a list that the loop itself rewrites. `index` may find an earlier
      copy of the line, but such a copy is already the replacement, so the
      outcome is the line-by-line rewrite. */
  method ReplaceMatching(lines: seq<string>, key: string, repl: string) returns (out: seq<string>)
    ensures out == Rewrite(lines, key, repl)
  {
    out := lines;
    for p := 0 to |lines|
      invariant |out| == |lines|
      invariant forall i :: 0 <= i < p ==> out[i] == RewriteLine(lines[i], key, repl)
      invariant forall i :: p <= i < |lines| ==> out[i] == lines[i]
    {
      var line := out[p];
      if Contains(line, key) {
        var q := IndexOf(out, line).value;
        out := out[q := repl];
      }
    }
  }

  /** What a line of the main configuration becomes: noise lines and
      event-count lines replaced, the rest kept. */
  function RewritePairLine(line: string, key1: string, repl1: string, key2: string, repl2: string): string
  {
    if Contains(line, key1) then repl1 else if Contains(line, key2) then repl2 else line
  }

  /** Every line rewritten by `RewritePairLine`. When each replacement
      carries its own key, the lines that carry one of the keys are the same
      before and after. */
  function RewritePair(lines: seq<string>, key1: string, repl1: string, key2: string, repl2: string): (r: seq<string>)
    ensures |r| == |lines|
    ensures Contains(repl1, key1) && Contains(repl2, key2) ==>
      forall i :: 0 <= i < |r| ==>
        ((Contains(r[i], key1) || Contains(r[i], key2)) <==> (Contains(lines[i], key1) || Contains(lines[i], key2)))
  {
    seq(|lines|, i requires 0 <= i < |lines| => RewritePairLine(lines[i], key1, repl1, key2, repl2))
  }

  /** No line carries both keys, and neither replacement carries the other
      replacement's key. */
  predicate KeysApart(lines: seq<string>, key1: string, repl1: string, key2: string, repl2: string)
  {
    && (forall i :: 0 <= i < |lines| ==> !(Contains(lines[i], key1) && Contains(lines[i], key2)))
    && !Contains(repl1, key2) && !Contains(repl2, key1)
  }

  /** Rewriting the main configuration twice is rewriting it once. */
  lemma RewritePairIdempotent(lines: seq<string>, key1: string, repl1: string, key2: string, repl2: string)
    requires Contains(repl1, key1) && Contains(repl2, key2) && !Contains(repl2, key1)
    ensures RewritePair(RewritePair(lines, key1, repl1, key2, repl2), key1, repl1, key2, repl2)
         == RewritePair(lines, key1, repl1, key2, repl2)
  {
  }

  /** `ModifyConf`'s loop: two independent `if`s on the same `line`, each
      replacing `lines[lines.index(line)]`. When the keys are apart the
      outcome is the line-by-line rewrite. Otherwise the second `index` may
      look for a line the first `if` has just replaced: `failed` reports the
      ValueError, and `out` is the list as the exception leaves it. */
  method ReplaceMatchingPair(lines: seq<string>, key1: string, repl1: string, key2: string, repl2: string)
    returns (out: seq<string>, failed: bool)
    ensures |out| == |lines|
    ensures KeysApart(lines, key1, repl1, key2, repl2) ==> !failed && out == RewritePair(lines, key1, repl1, key2, repl2)
  {
    var apart := KeysApart(lines, key1, repl1, key2, repl2);
    out, failed := lines, false;
    for p := 0 to |lines|
      invariant |out| == |lines|
      invariant apart ==> !failed
      invariant apart ==> forall i :: 0 <= i < p ==> out[i] == RewritePairLine(lines[i], key1, repl1, key2, repl2)
      invariant apart ==> forall i :: p <= i < |lines| ==> out[i] == lines[i]
    {
      var line := out[p];
      if Contains(line, key1) {
        var q := IndexOf(out, line).value;
        out := out[q := repl1];
      }
      if Contains(line, key2) {
        var found := IndexOf(out, line);
        if found.None? {
          failed := true;
          return;
        }
        out := out[found.value := repl2];
      }
    }
  }

  /** The three configuration files' lines, as the driver holds them in
      its global lists. */
  class Setup {
    var geomCont: seq<string>
    var configCont: seq<string>
    var modelCont: seq<string>

    constructor(geomCont: seq<string>, configCont: seq<string>, modelCont: seq<string>)
      ensures this.geomCont == geomCont && this.configCont == configCont && this.modelCont == modelCont
    {
      this.geomCont := geomCont;
      this.configCont := configCont;
      this.modelCont := modelCont;
    }

    /** Sets the orientation line of the geometry for an angle tag. */
    method ModifyGeom(angle: string)
      requires angle != []
      modifies this
      ensures geomCont == Rewrite(old(geomCont), "orientation", GeomLine(angle))
      ensures configCont == old(configCont) && modelCont == old(modelCont)
    {
      geomCont := ReplaceMatching(geomCont, "orientation", GeomLine(angle));
    }

    /** Sets the noise and event-count lines of the main configuration. */
    method ModifyConf(noise: string, nOfEvents: string) returns (r: Result<(), Error>)
      modifies this
      ensures KeysApart(old(configCont), "electronics_noise", NoiseLine(noise), "number_of_events", EventsLine(nOfEvents)) ==>
        r.Success? && configCont == RewritePair(old(configCont), "electronics_noise", NoiseLine(noise), "number_of_events", EventsLine(nOfEvents))
      ensures r.Failure? ==> r.error == ValueError
      ensures |configCont| == |old(configCont)|
      ensures geomCont == old(geomCont) && modelCont == old(modelCont)
    {
      var out, failed := ReplaceMatchingPair(configCont, "electronics_noise", NoiseLine(noise), "number_of_events", EventsLine(nOfEvents));
      configCont := out;
      r := if failed then Failure(ValueError) else Success(());
    }

    /** Sets the sensor-thickness line of the sensor model. */
    method ModifyModel(thickness: string)
      modifies this
      ensures modelCont == Rewrite(old(modelCont), "sensor_thickness", ThicknessLine(thickness))
      ensures geomCont == old(geomCont) && configCont == old(configCont)
    {
      modelCont := ReplaceMatching(modelCont, "sensor_thickness", ThicknessLine(thickness));
    }
  }

  /** Each replacement line is its key followed by " = ", the value and a
      newline. */
  function GeomLine(angle: string): string
    requires angle != []
  {
    "orientation" + (" = " + Orientation(angle) + "\n")
  }

  function NoiseLine(noise: string): string
  {
    "electronics_noise" + (" = " + noise + "\n")
  }

  function EventsLine(nOfEvents: string): string
  {
    "number_of_events" + (" = " + nOfEvents + "\n")
  }

  function ThicknessLine(thickness: string): string
  {
    "sensor_thickness" + (" = " + thickness + "\n")
  }

  /** A replacement that starts with its key makes the rewrite
      idempotent. */
  lemma KeyedRewriteIdempotent(lines: seq<string>, key: string, rest: string)
    ensures Rewrite(Rewrite(lines, key, key + rest), key, key + rest) == Rewrite(lines, key, key + rest)
  {
    ContainsPrefix(key, rest);
    RewriteIdempotent(lines, key, key + rest);
  }

  /** Each replacement line starts with its key, so running a `Modify`
      step again with the same value changes nothing. */
  lemma ModifyGeomIdempotent(lines: seq<string>, angle: string)
    requires angle != []
    ensures var g := Rewrite(lines, "orientation", GeomLine(angle));
      Rewrite(g, "orientation", GeomLine(angle)) == g
  {
    KeyedRewriteIdempotent(lines, "orientation", " = " + Orientation(angle) + "\n");
  }

  lemma ModifyConfIdempotent(lines: seq<string>, noise: string, nOfEvents: string)
    requires !Contains(EventsLine(nOfEvents), "electronics_noise")
    ensures var c := RewritePair(lines, "electronics_noise", NoiseLine(noise), "number_of_events", EventsLine(nOfEvents));
      RewritePair(c, "electronics_noise", NoiseLine(noise), "number_of_events", EventsLine(nOfEvents)) == c
  {
    ContainsPrefix("electronics_noise", " = " + noise + "\n");
    ContainsPrefix("number_of_events", " = " + nOfEvents + "\n");
    RewritePairIdempotent(lines, "electronics_noise", NoiseLine(noise), "number_of_events", EventsLine(nOfEvents));
  }

  lemma ModifyModelIdempotent(lines: seq<string>, thickness: string)
    ensures var m := Rewrite(lines, "sensor_thickness", ThicknessLine(thickness));
      Rewrite(m, "sensor_thickness", ThicknessLine(thickness)) == m
  {
    KeyedRewriteIdempotent(lines, "sensor_thickness", " = " + thickness + "\n");
  }

  /** The directory the simulation writes its output to. */
  const OutputPath: string := "/afs/cern.ch/user/r/rprivara/tb/output/"

  /** The name `MoveOutput` gives a run's output inside `OutputPath`: it
      ends in "_output.root", and when the tags hold no "_" the part before
      the first "_" is the tags joined by "-", angle, thickness, noise. */
  function MovedName(angle: string, noise: string, thickness: string): (r: string)
    ensures |r| >= 12 && r[|r| - 12..] == "_output.root"
    ensures '_' !in angle && '_' !in noise && '_' !in thickness ==>
      BeforeFirst(r, '_') == angle + "-" + thickness + "-" + noise
  {
    var tags := angle + "-" + thickness + "-" + noise;
    assert tags + "_output.root" == tags + ['_'] + "output.root";
    if '_' !in angle && '_' !in noise && '_' !in thickness then
      assert '_' !in tags;
      BeforeFirstOfJoin(tags, '_', "output.root");
      tags + "_output.root"
    else
      tags + "_output.root"
  }

  /** `fileName` of `MoveOutput`: the output directory, then the moved
      name. */
  function OutputFileName(angle: string, noise: string, thickness: string): (f: string)
    ensures |f| >= |OutputPath| + 12 && f[..|OutputPath|] == OutputPath
    ensures f[|f| - 12..] == "_output.root"
    ensures '_' !in angle && '_' !in noise && '_' !in thickness ==>
      BeforeFirst(f[|OutputPath|..], '_') == angle + "-" + thickness + "-" + noise
  {
    var name := MovedName(angle, noise, thickness);
    assert (OutputPath + name)[|OutputPath|..] == name;
    assert (OutputPath + name)[|OutputPath + name| - 12..] == name[|name| - 12..];
    OutputPath + name
  }

  /** When the tags carry no "_", both analysis scripts derive from a
      moved output file the analysed-file name with the same tags. */
  lemma AnalysedNameFollowsRun(angle: string, noise: string, thickness: string)
    requires '_' !in angle && '_' !in noise && '_' !in thickness
    ensures Analysis.OutputName(MovedName(angle, noise, thickness), Analysis.ZeroLiteral)
         == angle + "-" + thickness + "-" + noise + "_analysed.root"
    ensures Analysis2.OutputName(MovedName(angle, noise, thickness), "")
         == angle + "-" + thickness + "-" + noise + "_analysed.root"
  {
  }
}
