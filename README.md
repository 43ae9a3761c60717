# Strip-sensor threshold scan and simulation driver, modelled in Dafny

The analysed repository studies a silicon strip sensor simulated with Allpix².
The analysis scripts read the charge that each simulated particle (an *event*)
leaves on the strips. They can redistribute that charge between neighbouring
strips and to the back plane to mimic capacitive *cross-talk*. They then sweep a
detection threshold. At every threshold they count, per event, the strips above
it (the *cluster size*). An event with a non-empty cluster is a *hit event*:

- the efficiency at that threshold is the share of hit events;
- the cluster-size curve is the mean cluster size of the hit events.

A small driver rewrites the simulator's configuration files before each run.

The model covers four scripts.

- **`allpixAnalysis.py`**: modelled in `strip_charges.dfy`, `cross_talk.dfy`,
  `threshold_scan.dfy` and `allpix_analysis.dfy`. It builds the dense per-event
  strip-charge array and applies cross-talk in place (as numpy performs it)
  when either coefficient is positive. It runs the threshold × event loops,
  scales the efficiency by the number of events, and validates its command line.
- **`Analysis.py`**: modelled in `analysis.dfy`. It runs the same kernel, but
  applies cross-talk only when both coefficients are positive. It also derives
  the output name and the histogram titles.
- **`Analysis2.0.py`**: modelled in `analysis2.dfy`. It reads the events into a
  dictionary of per-event dictionaries, keyed by strip. A finer sweep, which
  includes its end value 8, then counts strips at *or* above the threshold. The
  results go to an efficiency object (passed and total per threshold) and to
  the points of the cluster-size graph.
- **`Run.py`**: modelled in `run.dfy`. It derives the orientation from an angle
  tag and rewrites matching lines of the three configuration files in place. It
  also names the output file.

Two supporting files complete the model:

- `text.dfy` holds the three Python string operations used: `in`,
  `split(c)[0]` and `strip(c)`.
- `wrappers.dfy` holds `Option` and `Result`, and the datatype `Error`, which
  names the exceptions the scripts raise: ZeroDivisionError, ValueError and
  IndexError.

Charges and thresholds are `real`s. Threshold `k` of a sweep is written as
`k * step`.

The model follows the code where it differs from what its design would
suggest.

- **Cross-talk boundaries.** The `try` block of the cross-talk step executes
  once, with the whole array of non-zero strip indices, so every update is a
  vectorised numpy update.
  - Index −1 wraps to the last strip.
  - Index `nOfStrips` raises `IndexError` before anything is written. This
    cancels every right-neighbour transfer of the event, while the other two
    updates stay applied.

  A clamped redistribution, which drops out-of-range transfers, is what one
  would expect. `CrossTalk.Clamped` is that reading. It agrees with the scripts
  only when both edge strips are empty (`CrossTalk.AgreesWithClampedAwayFromEdges`).
- **Charge balance.** Charge is not conserved: the back-plane term removes
  `back * sum` in every case. When the last strip holds charge, the cancelled
  right transfers also remove `side * sum` (`CrossTalk.ChargeBalance`).
- **Event loading.** The two older scripts re-iterate the event tree and
  rebuild every event's arrays once per threshold. The model does the same.
- **Output name in `Analysis.py`.** The script derives an output name only when
  `outputName == 0`. In Python 3 no string equals `0`, so the default `""`
  stays empty. The histogram titles are then `"Efficiency - "` and
  `"Cluster Size - "`.
- **Strip axis.** `Analysis2.0.py` takes the strip index from the pixel index's
  `Y()`, and the other two scripts take it from `X()`.

## Model

| member | source | states |
|---|---|---|
| `StripCharges.Slot` | allpixAnalysis.py:43 | a negative index in [-n, 0) addresses element `i + n`; every admissible index lands in the array |
| `StripCharges.Dense` | allpixAnalysis.py:41-43 | the array the hits fill has one entry per strip, whatever the hits; its contents are stated by the next two rows |
| `StripCharges.DenseUntouched` | allpixAnalysis.py:41-43 | a strip no hit addresses keeps the zero of `np.zeros` |
| `StripCharges.DenseLastWriteWins` | allpixAnalysis.py:42-43 | a strip addressed by several hits holds the charge of the last of them |
| `StripCharges.FillStrips` | allpixAnalysis.py:41-43 | the in-place fill of a fresh array yields the dense charge array of the event |
| `StripCharges.Copy` | allpixAnalysis.py:45 | `np.copy` gives a fresh array with the same contents |
| `CrossTalk.StripBelow` | allpixAnalysis.py:57 | the strip updated for index `j - 1` is numpy's slot for that index: strip 0 maps to the last strip |
| `CrossTalk.StripAbove` | allpixAnalysis.py:57 | every strip receives the left transfer of exactly one strip, the one whose `index - 1` it is |
| `CrossTalk.AfterSelfLoss` | allpixAnalysis.py:56 | the loss update writes only existing strips: one entry per strip |
| `CrossTalk.AfterLeftTransfer` | allpixAnalysis.py:57 | the left transfer writes only existing strips, the wrap at strip 0 included: one entry per strip |
| `CrossTalk.AfterRightTransfer` | allpixAnalysis.py:58-61 | the right transfer, or its cancellation, keeps one entry per strip |
| `CrossTalk.Transfer` | allpixAnalysis.py:55-61 | the `try` block keeps one entry per strip; `TransferAt` gives each strip's value |
| `CrossTalk.Redistributed` | allpixAnalysis.py:45-58 | redistribution keeps the number of strips and does not depend on the threshold |
| `CrossTalk.SubtractSelfLoss` | allpixAnalysis.py:56 | in place, every non-zero strip loses `2*side*q + back*q` of its original charge; other strips are unchanged |
| `CrossTalk.AddFromAbove` | allpixAnalysis.py:57 | in place, each strip gains `side` times the original charge of the strip above it when that is non-zero, the last strip receiving from strip 0 |
| `CrossTalk.AddFromBelow` | allpixAnalysis.py:55-61 | in place, each strip gains `side` times the original charge of the strip below; nothing changes at all when the last strip holds charge (the swallowed IndexError) |
| `CrossTalk.Redistribute` | allpixAnalysis.py:45-61 | the three updates applied in order to the copy leave it equal to `Transfer` of its old contents and the original charges |
| `CrossTalk.TransferAt` | allpixAnalysis.py:48-58 | the closed form of each strip's new charge: own loss from the original charge, gain from the strip above (wrapping), gain from the strip below unless the last strip holds charge |
| `CrossTalk.ZeroCoefficientsIdentity` | allpixAnalysis.py:47-58 | with both coefficients zero the redistribution is the identity |
| `CrossTalk.SelfLossAsSum` | allpixAnalysis.py:56 | the loss step adds `-(2*side+back)` times the original array |
| `CrossTalk.SumAfterSelfLoss` | allpixAnalysis.py:56 | the loss step lowers the total by `(2*side+back)` times the original total |
| `CrossTalk.Rotated` | allpixAnalysis.py:57 | the array of charges received from above has the array's length |
| `CrossTalk.LeftTransferAsSum` | allpixAnalysis.py:57 | the left transfer adds `side` times the rotated original array |
| `CrossTalk.SumAfterLeftTransfer` | allpixAnalysis.py:57 | the left transfer, wrapping included, adds exactly `side` times the original total |
| `CrossTalk.Shifted` | allpixAnalysis.py:58 | the array of charges received from below has the array's length |
| `CrossTalk.RightTransferAsSum` | allpixAnalysis.py:58 | when the last strip is empty, the right transfer adds `side` times the original array shifted up by one |
| `CrossTalk.SumAfterRightTransfer` | allpixAnalysis.py:55-61 | the right transfer adds `side` times the original total, or nothing when the last strip holds charge |
| `CrossTalk.ChargeBalance` | allpixAnalysis.py:45-61 | total after redistribution is `(1 - back) * total`, minus `side * total` when the last strip holds charge |
| `CrossTalk.Clamped` | allpixAnalysis.py:55-58 | the redistribution that drops out-of-range transfers keeps the array length |
| `CrossTalk.AgreesWithClampedAwayFromEdges` | allpixAnalysis.py:55-61 | with both edge strips empty the scripts compute exactly the clamped redistribution |
| `CrossTalk.WrapAtFirstStrip` | allpixAnalysis.py:57 | `[10,0,0,0]` with side 0.5 becomes `[0,5,0,5]`, not the clamped `[0,5,0,0]` |
| `CrossTalk.CancelAtLastStrip` | allpixAnalysis.py:58-61 | `[0,10,0,10]` with side 0.5 becomes `[5,0,5,0]`, not the clamped `[5,0,10,0]` |
| `ThresholdScan.SweepGrid` | allpixAnalysis.py:27-37 | the sweep holds exactly the 40 points `k*0.2` below 8, and the cut in electrons grows with `k` |
| `ThresholdScan.CrossTalkOn` | allpixAnalysis.py:47 | both gates (this one and the `and` of Analysis.py:39) open when both coefficients are positive and stay shut unless one is |
| `ThresholdScan.Adjusted` | allpixAnalysis.py:45-47 | the adjusted array of an event has one entry per strip |
| `ThresholdScan.CountAbove` | allpixAnalysis.py:64 | a cluster has at most as many strips as the array |
| `ThresholdScan.CountAbovePositive` | allpixAnalysis.py:64-67 | a cluster is non-empty iff some strip lies strictly above the cut |
| `ThresholdScan.CountAboveMonotone` | allpixAnalysis.py:64 | a higher cut never enlarges a cluster |
| `ThresholdScan.Cluster` | allpixAnalysis.py:64 | an event's cluster size lies in `[0, nOfStrips]` |
| `ThresholdScan.HitEvents` | allpixAnalysis.py:67-68 | the number of efficiency fills at a cut is at most the number of events |
| `ThresholdScan.ClusterTotal` | allpixAnalysis.py:67-69 | the cluster-size sum is zero exactly when no event is hit |
| `ThresholdScan.ClusterTotalAtLeastHits` | allpixAnalysis.py:67-69 | each hit event adds at least one strip to the cluster-size sum |
| `ThresholdScan.ClusterTotalAtMostStrips` | allpixAnalysis.py:64-69 | the cluster-size sum is at most `nOfStrips` per hit event |
| `ThresholdScan.HitEventsMonotone` | allpixAnalysis.py:35-68 | a higher cut never yields more hit events |
| `ThresholdScan.EventCluster` | allpixAnalysis.py:41-64 | fill, copy, cross-talk when the gate is open, then count: the event's cluster size |
| `ThresholdScan.ScanEvents` | allpixAnalysis.py:40-69 | the event loop at one threshold yields the number of hit events and the sum of their cluster sizes |
| `ThresholdScan.ScanThresholds` | allpixAnalysis.py:35-69 | counter `k` holds the hit events and the cluster-size sum at threshold `k*0.2` fC |
| `ThresholdScan.HitEventsNonIncreasing` | allpixAnalysis.py:35-68 | the hit-event counters never increase along the sweep |
| `ThresholdScan.Scaled` | allpixAnalysis.py:71 | scaling by `1/total` fails with ZeroDivisionError iff `total` is 0; otherwise each entry times `total` is the counter |
| `ThresholdScan.ScaledOrder` | allpixAnalysis.py:71 | scaling keeps a non-increasing curve non-increasing and maps `[0, bound]` onto `[0, bound/total]` |
| `ThresholdScan.Sweep` | allpixAnalysis.py:35-71 | the scan then the scaling: fails iff no events are configured, else the histograms are exactly those of the scan |
| `ThresholdScan.DescribedCurves` | allpixAnalysis.py:35-72 | efficiency is non-increasing in the threshold and at most events-in-tree / configured events; mean cluster size over hit events lies in `[1, nOfStrips]` |
| `AllpixAnalysis.RunAnalysis` | allpixAnalysis.py:22-71 | cross-talk when either coefficient is positive; ZeroDivisionError iff `nOfEvents` is 0; otherwise the histograms of the scan scaled by `nOfEvents` |
| `AllpixAnalysis.NoCrossTalkByDefault` | allpixAnalysis.py:47 | with both coefficients at their default 0 the adjusted array is the dense one |
| `AllpixAnalysis.Coerce` | allpixAnalysis.py:118-127 | a kept coefficient always lies in [0,1]: the parsed value when it parses and lies there, else 0.0 |
| `AllpixAnalysis.FlagValue` | allpixAnalysis.py:115-140 | a coefficient after the argument loop lies in [0,1] |
| `AllpixAnalysis.FlagValueDefault` | allpixAnalysis.py:109-111 | without its flag a coefficient keeps its default 0.0 |
| `AllpixAnalysis.FlagValueLastOccurrence` | allpixAnalysis.py:115-140 | the last occurrence of a flag decides the coefficient, from the argument after it |
| `AllpixAnalysis.ParseArguments` | allpixAnalysis.py:104-142 | usage message iff the argument count is not 1, 3 or 5; uncaught IndexError iff a valid list ends with a flag; otherwise the first argument is the input and the coefficients are the last-occurrence values |
| `Analysis.DerivedName` | Analysis.py:10 | the derived output name keeps the input's prefix before the first "_" and ends in "_analysed.root" |
| `Analysis.EmptyNameOnlyWhenGiven` | Analysis.py:10 | the name is empty exactly when "" is passed: a string argument is never replaced, and the derived name, selected only by the integer 0, is never empty |
| `Analysis.EfficiencyTitle` | Analysis.py:25 | "Efficiency - " followed by the longest start of the name without "_" |
| `Analysis.ClusterTitle` | Analysis.py:27 | "Cluster Size - " followed by the longest start of the name without "_" |
| `Analysis.TitlesFollowNames` | Analysis.py:25-27 | titles carry the input's prefix when the name is derived, and nothing after the dash for the default "" |
| `Analysis.RunAnalysis` | Analysis.py:7-57 | cross-talk only when both coefficients are positive; ZeroDivisionError iff `nOfParts` is 0; otherwise name, titles and the scan's histograms scaled by `nOfParts` |
| `Analysis.EitherZeroSkipsCrossTalk` | Analysis.py:39 | with either coefficient zero the adjusted array is the dense one |
| `Analysis2.Charges` | Analysis2.0.py:22-24 | an event's dictionary has no more entries than the event has hits |
| `Analysis2.EventDict` | Analysis2.0.py:22-24 | the hit-by-hit loop builds exactly that dictionary |
| `Analysis2.ChargesKeys` | Analysis2.0.py:22-24 | an event's dictionary has one key per strip hit and no other |
| `Analysis2.ChargesLastWriteWins` | Analysis2.0.py:22-24 | a later hit on the same strip overwrites the earlier charge |
| `Analysis2.ImportROOTFile` | Analysis2.0.py:12-29 | ZeroDivisionError iff the event count is 0 and the tree has an event; else keys are exactly 0..n-1 in order and entry `i` is event `i`'s dictionary |
| `Analysis2.CountAtLeast` | Analysis2.0.py:34 | an event's count is at most its number of strips |
| `Analysis2.CountAtLeastPositive` | Analysis2.0.py:34 | the count is non-zero iff some strip's charge is at or above the threshold |
| `Analysis2.CountAtLeastMonotone` | Analysis2.0.py:34 | a higher threshold never raises an event's count |
| `Analysis2.ScanThresholdDict` | Analysis2.0.py:31-37 | exactly one count per event, in event order, each bounded by that event's strip count |
| `Analysis2.ScanThresholdTree` | Analysis2.0.py:40-48 | building the dictionaries on the fly gives the same counts as reading them from `hit_dict` |
| `Analysis2.EventCounts` | Analysis2.0.py:33-35 | one count per event |
| `Analysis2.Passed` | Analysis2.0.py:82-83 | no more events pass than are filled |
| `Analysis2.PointwiseSmaller` | Analysis2.0.py:82-84 | pointwise smaller counts pass no more often and sum to no more |
| `Analysis2.PassedOrEmpty` | Analysis2.0.py:82-84 | every filled count passes or is zero: the count of counts is the passed count plus the number of empty clusters |
| `Analysis2.EventCountsMonotone` | Analysis2.0.py:76-84 | raising the threshold never raises the passed count or the cluster-size sum |
| `Analysis2.SweepGrid` | Analysis2.0.py:61-63 | 81 thresholds `k*0.1`, the end value 8 included, all distinct, so the graph index of `thr` is `k` |
| `Analysis2.NameNeverEmpty` | Analysis2.0.py:51-52 | the name is never empty: the default "" gets the derived name, which `Analysis.py` gives only for the integer 0 and so differs from its "" |
| `Analysis2.CountsAt` | Analysis2.0.py:77-80 | one count per event at threshold index `k` |
| `Analysis2.PassedAt` | Analysis2.0.py:82-83 | the passed count at a threshold is at most the number of events |
| `Analysis2.PointAtMeanOverAll` | Analysis2.0.py:84 | the mean of graph point `k` is over every event: the events passed plus those with an empty cluster |
| `Analysis2.RunAnalysis` | Analysis2.0.py:50-85 | fails iff the import does; otherwise threshold `k` records the events passed, all events as total, and graph point `k` with the threshold, the cluster-size sum and the event count |
| `Analysis2.ThresholdLoop` | Analysis2.0.py:76-85 | the loop records, for every threshold index, what the sweep specifies |
| `Analysis2.ScanAt` | Analysis2.0.py:77-85 | one threshold: passed and total counts and graph point `k` |
| `Analysis2.FillEfficiency` | Analysis2.0.py:82-83 | `eff.Fill(bool(cluster), thr)` over the list adds the non-zero counts as passed and every count as total |
| `Analysis2.SweepCurves` | Analysis2.0.py:76-85 | passed never exceeds total; passed counts and cluster-size sums never increase along the sweep |
| `Run.Orientation` | Run.py:4-11 | the sensor is turned about one axis at most: two of the three components are "0" |
| `Run.OrientationOfTag` | Run.py:4-9 | an "x", "y" or "z" tag puts its stripped value on that axis of `a b c` and zeros elsewhere |
| `Run.OrientationWithoutAxis` | Run.py:10-11 | any other tag gives "0 0 0" |
| `Run.Rewrite` | Run.py:13-15 | one line out per line in; when the replacement carries its key, the lines carrying the key are the same before and after |
| `Run.RewriteIdempotent` | Run.py:13-15 | a replacement containing its key makes the rewrite idempotent |
| `Run.IndexOf` | Run.py:15 | `list.index`: the first position holding the line, or none |
| `Run.ReplaceMatching` | Run.py:13-15 | the index-based in-place loop replaces exactly the lines containing the key, keeps the others and the length |
| `Run.RewritePair` | Run.py:22-26 | one line out per line in; when each replacement carries its key, the lines carrying one of the keys are the same before and after |
| `Run.RewritePairIdempotent` | Run.py:22-26 | the two-key rewrite is idempotent when each replacement contains its key and the event-count line lacks the noise key |
| `Run.ReplaceMatchingPair` | Run.py:22-26 | when no line holds both keys and no replacement holds the other key, no ValueError and the line-by-line rewrite |
| `Run.Setup.constructor` | Run.py:62-71 | the three line lists as read from the default files |
| `Run.Setup.ModifyGeom` | Run.py:3-15 | orientation lines become `orientation = <o>\n`, everything else unchanged |
| `Run.Setup.ModifyConf` | Run.py:21-26 | noise and event-count lines rewritten, nothing else, when the keys are apart; a failure is a ValueError |
| `Run.Setup.ModifyModel` | Run.py:32-35 | sensor-thickness lines rewritten, nothing else |
| `Run.KeyedRewriteIdempotent` | Run.py:13-15 | a replacement that starts with its key makes the rewrite idempotent |
| `Run.ModifyGeomIdempotent` | Run.py:13-15 | running `ModifyGeom` twice with the same angle equals running it once |
| `Run.ModifyConfIdempotent` | Run.py:22-26 | running `ModifyConf` twice with the same values equals running it once |
| `Run.ModifyModelIdempotent` | Run.py:33-35 | running `ModifyModel` twice with the same value equals running it once |
| `Run.MovedName` | Run.py:49 | the moved name ends in "_output.root"; for tags without "_" its part before the first "_" is `angle-thickness-noise` |
| `Run.OutputFileName` | Run.py:49 | the file name starts with the output directory and ends in "_output.root"; for tags without "_" the name after the directory reads `angle-thickness-noise` up to its first "_" |
| `Run.AnalysedNameFollowsRun` | Run.py:49 | for tags without "_", both analysis scripts derive `angle-thickness-noise_analysed.root` from a moved output file |
| `Text.Contains` | Run.py:14 | `sub in s` holds exactly when `sub` occurs as a block of `s` at some position |
| `Text.ContainsPrefix` | Run.py:14 | a string contains what it starts with |
| `Text.BeforeFirst` | Analysis.py:25 | `split(sep)[0]` is the longest separator-free prefix: a prefix, without `sep`, followed by `sep` unless it is all of `s` |
| `Text.BeforeFirstOfJoin` | Analysis.py:10 | the prefix before the first separator of `head + sep + tail` is `head` when `head` has no separator |
| `Text.StripLeft` | Run.py:5 | `lstrip(c)` removes exactly the leading run of `c` |
| `Text.StripRight` | Run.py:5 | `rstrip(c)` removes exactly the trailing run of `c` |
| `Text.Strip` | Run.py:5 | `strip(c)` leaves the block between the runs of `c` at both ends, and only those runs are removed |

## Left out

- ROOT input and output are not modelled: `TFile`, the `PixelCharge` tree, reading `number_of_pixels` and `number_of_events`, and writing or closing files. The events become a sequence of hit lists. The strip and event counts become parameters.
- The ROOT histogram objects (`TH1D`, `TH2D`, `TEfficiency`, `TGraphErrors`) become per-threshold counters and sums. Their binning, `ProfileX`, the error bars and the scaling of errors are not modelled.
- Analysis2.RunAnalysis: the efficiency object of `Analysis2.0.py` has 80 bins on [0, 8] (line 70), so the fills at the last threshold, 8.0 (index 80), land in its overflow bin and are not on the efficiency curve; only the cluster graph shows that point. The model records passed and total for all 81 thresholds and does not model the binning.
- `np.mean` and `scipy.stats.sem` are not modelled. A graph point records the sum and the number of counts its mean is taken from.
- Curve fitting (`TF1`, `Fit`), `gStyle` settings and axis titles are not modelled. They are external numerical and plotting code.
- Floating point is not modelled: charges, thresholds and `6242.2` are exact reals. The `np.arange` grids are fixed at their 40 and 81 points.
- Command-line values are read by an abstract parser in place of `float(...)`. It yields a real number or nothing; NaN and infinities are not modelled.
- Coerce: a NaN passes both range tests of the script and is kept. The model's parser never yields one.
- The existence checks via `os.path`, the overwrite prompt and the early `return 1` of `allpixAnalysis.py` (lines 10-19) are not modelled. These are file-system and terminal I/O.
- Progress printing is not modelled. This includes the Python 2 `print` statement at `allpixAnalysis.py:38`, which Python 3 rejects as a syntax error. The model treats that line as output only.
- The progress test `i/n_particles*100 % 1 == 1` in `Analysis2.0.py` never holds. The model keeps only its ZeroDivisionError.
- `scaleXFactor` in `Analysis.py` is always 1 and is not modelled.
- StripCharges.Dense: hits whose strip index lies outside `[-n, n)` raise an uncaught IndexError in the scripts. The model requires every index to lie in range (`Addressable`).
- Analysis2.ScanThresholdDict: modelled only for dictionaries keyed 0..n-1. Those are the only dictionaries `ImportROOTFile` builds. Dafny maps have no insertion order, and such a dictionary iterates its values in key order.
- Run.ReplaceMatchingPair: its contract says nothing beyond the length when a line holds both keys, or a replacement holds the other key. The script may then raise ValueError or rewrite a later copy of the line.
- Run.Setup.ModifyConf: inherits that gap. Its new configuration list is stated only when the keys are apart, and a failure is stated only to be a ValueError, not when it happens.
- Run.Setup.ModifyGeom: an empty angle tag raises IndexError at `angle[0]`. It is excluded by a precondition.
- Not modelled in `Run.py`:
  - the writes of `geom.conf`, `cfg.conf` and `atlas17.conf`;
  - `RunSimulation`;
  - the `cp` of `MoveOutput`, whose target name is modelled;
  - the driver loop over angles, noises and thicknesses (lines 78-86), which only sequences those calls.

  These are file and process I/O.
- Plotting.py is not part of this model.
