# php-respimg: `Respimg::betterResize` in Dafny

php-respimg resizes raster images for the web. Its `Respimg` class extends
the Imagick engine, and `betterResize($columns, $rows, $optim)` does three
things:

- it rebuilds the engine's thumbnail routine with a triangle filter;
- it chooses between a direct filtered resize and a five-fold box sample
  followed by that resize;
- it normalises the result for small files: opaque alpha, depth 8, no
  interlace, profile and metadata removal, sharpening, posterisation,
  compression settings, sRGB, and an optional strip.

The model splits the routine into pure functions over an abstract engine
record.

- `Engine` (engine.dfy) is the part of the engine state betterResize reads
  or writes. That is the size, alpha channel, depth, interlace scheme,
  profile listing, property map, option map, compression quality and
  colorspace. Each engine call is an `Op` with its arguments, and `Apply`
  and `Run` give the calls' effect on the record.
- `Planning` (planning.dfy) holds the scale factors as exact reals, PHP's
  `round`, and the inference of the rows when 0 rows are requested. It also
  holds the area test `x_factor * y_factor > 0.1`. Each integer form used
  for computation is proved equal to the real formula of the source.
- `Strategy` (strategy.dfy) picks the branch and lists the resize commands
  it issues. The area test uses the rows the caller passed, taken before
  inference. A request with 0 rows therefore has area factor 0 and never
  takes the direct-by-area branch. The model keeps this behaviour. The
  comparison is strict, so an area factor of exactly one tenth does not
  take the direct branch.
- `Normalize` (normalize.dfy) is the ordered normalisation trace and the
  record it leaves. It is compared against `Expected`, an independent
  field-by-field description of that record.
- `Respimg` (respimg.dfy) composes the three parts as `BetterResize`, which
  returns the full command trace and the final record. It also proves
  properties of the whole routine.

Whether the engine can delete properties (`method_exists`) is the
parameter `canDelete`. The model covers both branches, and they read the
same.

The record keeps the alpha-channel mode it was last set to. The engine
reports only whether a channel is present (`HasAlphaChannel`), and a channel
that was never set or was deactivated reads as absent. The source's test
against `ALPHACHANNEL_UNDEFINED` is this report.

A record stands for an engine state when it is `Canonical`. The engine keeps
profiles, properties and options by name and ignores ASCII letter case. So
no profile is listed twice in any case. A key or name spelled, in any case,
like one of the named options or properties is that one, never
`OtherOption` or `OtherProperty`. The frame lemmas hold for every record. On
a canonical record they describe the engine, and betterResize keeps records
canonical.

## Model

| member | source | states |
|---|---|---|
| Planning.Factor | src/Respimg.php:22-23 | a scale factor is non-negative, and times the natural size it gives back the requested size |
| Planning.Round | src/Respimg.php:25 | PHP `round` of a non-negative value lies within half a unit of it |
| Planning.TargetRows | src/Respimg.php:24-26 | the caller's rows are kept when non-zero; 0 rows become `round(x_factor * height)` |
| Planning.RoundedRowsMatch | src/Respimg.php:25 | the integer quotient `(2ch + w) / 2w` equals PHP `round` of the real product `x_factor * height` |
| Planning.InferredRowsKeepAspect | src/Respimg.php:24-26 | inferred rows keep the image's aspect ratio to within half a row |
| Planning.AreaAboveTenth | src/Respimg.php:22-27 | the integer area test holds exactly when the product of the factors, with y taken from the requested rows, exceeds 0.1 |
| Planning.AreaMatches | src/Respimg.php:27 | ten times the target area exceeds the natural area if and only if the factors' product exceeds one tenth |
| Engine.Apply | src/Respimg.php:15-87 | only a resize or sample changes the size, only an option command the options, only a removal or strip the profiles; unsharp mask and posterize leave the record as it is |
| Engine.Run | src/Respimg.php:15-87 | a command list without resize or sample keeps the size; one without option commands keeps the options |
| Strategy.FinalResize | src/Respimg.php:28-34 | every branch ends with a triangle-filter resize, blur 1, to the requested columns and the target rows |
| Strategy.Choose | src/Respimg.php:27-36 | the direct-by-area branch is taken exactly when the factors' product exceeds 0.1; the sample-first branch exactly when it does not and both five-fold sizes reach 128 |
| Strategy.ResizeOps | src/Respimg.php:20-36 | one or two commands: the last is the triangle resize, blur 1, to the requested columns and target rows; no earlier resize; a sample occurs exactly on the sample-first branch, to five times the target |
| Strategy.DirectWhenAreaAboveTenth | src/Respimg.php:27-28 | an area factor above 0.1 gives exactly one resize and no sample |
| Strategy.ZeroRowsNeverDirectByArea | src/Respimg.php:23-27 | a request with 0 rows never takes the direct-by-area branch |
| Strategy.SmallTargetSingleResize | src/Respimg.php:30-31 | in the low-area branch, a five-fold size below 128 on either axis gives a single resize |
| Strategy.FinalSizeIndependentOfBranch | src/Respimg.php:27-36 | whichever branch runs, the record ends at the requested columns and target rows with nothing else changed |
| Strategy.ExactTenthSamplesFirst | src/Respimg.php:27-34 | 100 x 1000 of a 1000 x 1000 image has area factor exactly 0.1 and is sampled to 500 x 5000 before the resize |
| Strategy.ZeroRowsSamplesAboveNaturalSize | src/Respimg.php:23-34 | 600 columns and 0 rows of a 1000 x 1000 image are sampled up to 3000 x 3000 first, although the inferred size has area factor 0.36 |
| Normalize.AlphaOps | src/Respimg.php:37-39 | the alpha step is the single opaque command exactly when the engine reports no alpha channel, and empty otherwise |
| Normalize.DeactivatedAlphaBecomesOpaque | src/Respimg.php:37-39 | a deactivated channel reads as none, so the trace opens with the opaque command and the alpha ends opaque |
| Normalize.ProfileOps | src/Respimg.php:42-46 | the loop issues only removals of listed keys other than icc and icm, and one for each such key |
| Normalize.ProfileOpsFindProfiles | src/Respimg.php:42-46 | a loop over distinct keys the record holds never removes a profile that is already gone |
| Normalize.ProfileLoopFindsEveryProfile | src/Respimg.php:42-46 | on a canonical record, every removal of the loop over its own listing finds its profile |
| Normalize.RepeatedListingRemovesTwice | src/Respimg.php:42-46 | a listing with a repeated key would make the loop remove it twice, the second time in vain; engine listings have no repeats |
| Normalize.RunProfileOps | src/Respimg.php:42-46 | running the loop drops exactly the removed keys from the profile listing and changes nothing else |
| Normalize.ProfileLoopKeepsOnlyColorProfiles | src/Respimg.php:42-46 | after the loop, the profiles left are exactly the listed icc and icm; neither is ever removed; the other fields are unchanged |
| Normalize.PropertyOps | src/Respimg.php:47-67 | one command per name, in order: a delete when the engine can delete, otherwise a set to the empty string |
| Normalize.RunPropertyOps | src/Respimg.php:47-67 | running the property step removes, or blanks, exactly the listed names and changes nothing else |
| Normalize.ClearedPropertiesReadEmpty | src/Respimg.php:47-67 | with either branch, the nine properties read as empty and every other property keeps its presence and value |
| Normalize.RunPrepareOps | src/Respimg.php:37-41 | the first steps set alpha by the no-channel rule, depth 8 and no interlace, and nothing else |
| Normalize.Sharpening | src/Respimg.php:70-74 | the unsharp mask has radius 0.25 and sigma, amount and threshold 0.08, 8.3, 0.045 with optim, and 0.25, 8, 0.065 without |
| Normalize.RunSharpenOps | src/Respimg.php:70-76 | sharpening and posterisation leave the record alone; the quality becomes 82 |
| Normalize.RunEncoderOptionOps | src/Respimg.php:77-81 | the five encoder options take their values, and the other options are unchanged |
| Normalize.RunClosingOps | src/Respimg.php:82-88 | no interlace and sRGB are set; when optim is false, the strip also drops every profile and the comment and date properties, and keeps the other properties |
| Normalize.NormalizeOps | src/Respimg.php:37-88 | the trace has the alpha step, two more preparation commands, the loop's removals, nine property commands and ten closing commands, plus the strip when optim is false |
| Normalize.Normalize | src/Respimg.php:37-88 | the profile loop runs over the profiles the image had on entry, since the earlier steps keep them, and the final record is the `Expected` one |
| Normalize.Expected | src/Respimg.php:37-88 | the reference record, field by field: normalised alpha, depth 8, no interlace, icc/icm only or no profiles, cleared properties with the strip's deletions when optim is false, encoder options, quality 82, sRGB |
| Normalize.RunNormalizeOps | src/Respimg.php:37-88 | running the whole normalisation trace leaves exactly the independently stated `Expected` record |
| Normalize.NormalizeObservations | src/Respimg.php:37-88 | size kept; opaque alpha exactly when no channel is reported; depth 8, no interlace, quality 82, sRGB, encoder options set; with optim only icc/icm and the nine properties reading empty; without optim no profiles, the nine and the date properties reading empty, comment and date properties gone; other properties unchanged either way |
| Normalize.ExpectedObservations | src/Respimg.php:42-88 | the `Expected` record has the encoder options set; with optim only the icc/icm profiles and the nine properties reading empty; without optim also the comment and date properties gone; the other properties unchanged |
| Normalize.NormalizeIdempotent | src/Respimg.php:37-88 | normalising an already normalised record changes nothing |
| Normalize.ExpectedIdempotent | src/Respimg.php:37-88 | the `Expected` record is a fixed point of `Expected` |
| Normalize.StrippedClearedTwice | src/Respimg.php:47-88 | clearing the nine properties and stripping, done twice, is done once |
| Normalize.ExpectedKeepsCanonical | src/Respimg.php:37-88 | the normalised record of a canonical record is canonical: no profile repeated in any letter case, no named key spelled as an other one |
| Normalize.NormalizeOpsArguments | src/Respimg.php:37-88 | every normalisation command carries the source's arguments and none of them resizes or samples |
| Normalize.NormalizeOpsContents | src/Respimg.php:37-88 | the trace has opaque alpha exactly when no channel is reported; it always has depth 8, the optim-chosen unsharp mask, posterize 136, quality 82 and sRGB; it has a strip, as the last command, exactly when optim is false |
| Normalize.NormalizeOpsInterlaceBrackets | src/Respimg.php:41-82 | two no-interlace commands enclose every profile and property command |
| Engine.CapitalisedSoftwareNotCanonical | src/Respimg.php:53 | an `OtherProperty` spelled `Software` is the engine's `software` property, so a record holding it is not canonical |
| Respimg.HeadOps | src/Respimg.php:15-36 | the filter support option comes first and the final resize to the target comes last |
| Respimg.BetterResize | src/Respimg.php:14-89 | the final record has the requested columns and the target rows |
| Respimg.ResizedRecord | src/Respimg.php:15-36 | after the filter support and the resize commands, the record has the target size and filter support 2.0, and is otherwise unchanged |
| Respimg.TraceSplits | src/Respimg.php:14-89 | the trace is the filter support, the resize commands, then the normalisation commands over the profiles on entry |
| Respimg.BetterResizeImage | src/Respimg.php:14-89 | the final record is the `Expected` normalisation of the resized record |
| Respimg.ExpectedResizedForWeb | src/Respimg.php:14-89 | that normalisation meets every final-state promise of the routine |
| Respimg.BetterResizeFinalState | src/Respimg.php:14-89 | requested size; opaque alpha exactly when no channel is reported; depth 8, no interlace, quality 82, sRGB; filter support 2.0 and encoder options kept; with optim only icc/icm and the nine properties reading empty; without optim no profiles, and the comment and date properties gone as well; other properties unchanged |
| Respimg.BetterResizeKeepsCanonical | src/Respimg.php:14-89 | betterResize on a canonical record leaves a canonical record |
| Respimg.SupportSurvivesEncoderOptions | src/Respimg.php:15-81 | setting the encoder options does not disturb the filter support |
| Respimg.BetterResizeTrace | src/Respimg.php:14-89 | filter support first; exactly one resize, to the target; a sample exactly on the sample-first branch; only normalisation commands after the resize; a strip, last, exactly when optim is false |
| Respimg.ConcatTraceShape | src/Respimg.php:14-89 | resize commands followed by normalisation commands form a trace of that shape |
| Respimg.HeadShape | src/Respimg.php:15-36 | the head has one more command than the resize step; only its last command resizes; it samples exactly on the sample-first branch; it never strips |
| Respimg.BetterResizeIdempotent | src/Respimg.php:14-89 | running betterResize again with the same request on its own non-empty result leaves the record unchanged |
| Respimg.ResizedAgain | src/Respimg.php:14-89 | a result already has the requested size and the filter support |
| Respimg.SameRequestSameRows | src/Respimg.php:22-26 | an image already at the requested size asks for the same rows again |

## Left out

- Pixels: resampling, sampling, unsharp masking, posterisation and encoding are engine calls. They are recorded with their arguments, but their effect on pixels is not modelled. Resize and sample change only the recorded size.
- Floating point: the source computes the factors and the area product in doubles. The model uses exact rationals, so products that a double would round across 0.1, and halves that a double would round across in `round`, are not modelled.
- Engine errors and exceptions: resizing to a zero dimension, and any error Imagick raises, are not modelled. The model accepts a request whose rows round to 0.
- Engine-side inference: Imagick infers a dimension passed as 0 to its own resize. The model records the 0. The source itself never infers columns.
- Request types: PHP accepts any values for `$columns` and `$rows`. The model takes natural numbers, so negative or fractional requests are out of scope.
- `stripImage` is modelled as the engine's strip: it drops every profile and the `comment`, `date:create` and `date:modify` properties. The `png:exclude-chunk` image artifact the strip also sets is not modelled, nor is the `date:timestamp` deletion some engine releases add.
- Enumerations: alpha channel states, interlace schemes, colorspaces and filters are subsets of the engine's constants, reduced to those the routine uses or reads.
- Option keys and property names outside the ones betterResize sets, clears or strips are folded into `OtherOption` and `OtherProperty`. The frame lemmas do not require `Canonical`. On a record that is not canonical, such as one with an `OtherProperty` spelled `comment` or `Software`, that entry is treated as an unrelated property.
- Case-insensitive matching is modelled only through `Canonical`. Commands match names exactly. On a canonical record this is the same, since no two names differ only in case.
- Normalize.AlphaOps: follows engine releases where a deactivated channel reads as absent. On releases where it still reads as present, the source issues no opaque command for it, and the model does not cover that.
- Other routines are not part of this model: `smartResize`, `rasterize` and `optimize` are called by the test scripts but not defined in `src/Respimg.php`. The test scripts' directory walks, file writes and console output are also excluded.
