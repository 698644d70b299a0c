# ojsama.js core in Dafny

ojsama.js is a single-file osu!standard difficulty and performance-point (pp)
calculator. It parses a `.osu` beatmap, computes its maximum combo, adjusts
approach rate (AR), overall difficulty (OD), circle size (CS) and HP drain for
the selected mods, and rates the map in stars from two strain passes over the
hit objects (speed and aim). It then turns judgement counts or a target
accuracy into the inputs of the pp formulas. This project models that core and
proves what each part promises.

The modules follow the program's structure:

- `Mods` (mods.dfy): the mod bitmask constants and `MOD_CONSTANTS.fromString`.
- `Text` (text.dfy): the string operations the parser relies on. These are
  `split`, `trim`, the section and key:value patterns and the format header.
- `Beatmaps` (beatmap.dfy): the `Beatmap` class, its fields and defaults, and
  `maxCombo`. The method runs the source's forward timing-point scan. It is
  proved equal to a recursive specification and to a reference definition that
  looks up each slider's active timing point directly.
- `Parser` (parser.dfy): `Beatmap.parse`. Pure functions state what one line
  does to the map (`LineStep`) and what the whole file gives (`ParseOf`). The
  imperative `Parse` fills a fresh `Beatmap` in place and is proved to agree
  with them.
- `Stats` (stats.dfy): `recalculateApproachRate`,
  `recalculateOverallDifficulty` and `StdBeatmapStats.withMods`, including its
  per-instance memo table.
- `Strain` (strain.dfy): the strain recurrence, the windowing into
  400 ms × speed chunks, the descending sort and the 0.9-geometric weighted
  sum, all as values.
- `DifficultyEngine` (difficulty.dfy): the `StdDifficulty` class and the
  `Difficulty` class. `StdDifficulty` covers position normalization, the
  in-place strain passes, the star values and the singletap counts.
  `Difficulty` adds the per-mode calculator cache.
- `Accuracy` (accuracy.dfy): `StdAccuracy`, the clamped accuracy value and the
  count solver for a target percentage.
- `PerformanceInputs` (ppinputs.dfy): `StdPPv2.calc` up to the pp formulas.
  This covers where the map figures and star ratings come from, the checks on
  figures given by hand, the count defaults, the solver run and the
  score-version dispatch.
- `Numeric`, `Wrappers` and `Seqs` hold shared pieces:
  - `Math.ceil` and `Math.round` defined through `Floor`.
  - JavaScript truthiness.
  - The 32-bit view of numbers used by `&` and `|`.
  - `Option`/`Result`.

Numbers are Dafny `real`s; counts are `int`s. `Math.pow` and `Math.sqrt` are
parameters, bundled in a `Maths` record. `parseFloat` and `parseInt` are
parameters too, in a `Readers` record. Where a proof needs `pow` or `sqrt` to
behave like the real functions, it requires the `Lawful` predicate:
non-negative results for non-negative arguments. Every thrown error is a
`Failure` value of a `Result`.

## Model

| member | source | states |
|---|---|---|
| Numeric.Ceil | ojsama.js:461 | `Math.ceil`: the least integer not below x |
| Numeric.Round | ojsama.js:1255-1257 | `Math.round`: the integer within half a unit of x, with halves rounding up |
| Mods.AbbrevBits | ojsama.js:659-671 | `MOD_CONSTANTS[abbrev] \|\| 0`: only table bits appear, and the result is non-zero exactly for the ten mod abbreviations |
| Mods.UpperChar | ojsama.js:675 | one character's upper-case form is one to three characters, all already upper case, and it is the character itself exactly when that character is upper case |
| Mods.Upper | ojsama.js:675 | `str.toUpperCase()`: every character of the result is upper case, a string that is already upper case comes back unchanged, and the result is one to three times as long |
| Mods.UpperAppend | ojsama.js:675 | upper-casing a concatenation is the concatenation of the upper-cased parts |
| Mods.Chunks | ojsama.js:679 | `match(/(\w{2})/g)`: every chunk is two word characters, and a string shorter than two has none |
| Mods.OrAll | ojsama.js:681 | the reduce with `\|` sets only table bits, and every chunk's own bits are set in the result |
| Mods.OrAllBelow | ojsama.js:681 | the reduce sets no other bit: any mask that holds every chunk's bits holds the result |
| Mods.OrAllLeast | ojsama.js:681 | both directions together: the result holds each chunk's bits and lies within every mask that holds them all, so it is the least such mask |
| Mods.FromString | ojsama.js:674-682 | "NOMOD" in any case gives 0; no two-character chunk gives the null-reduce failure; any success holds only table bits |
| Mods.FromStringLeast | ojsama.js:674-682 | a string with chunks that is not NOMOD succeeds, and its mask is exactly the OR of the chunks' bits: it holds each of them and no bit that none of them holds |
| Mods.UpperChunkIdempotent | ojsama.js:675-679 | upper-casing twice is upper-casing once |
| Mods.FromStringIgnoresCase | ojsama.js:674-682 | the mask of a string is the mask of its upper-cased form |
| Mods.ChunksOfAbbreviations | ojsama.js:679 | a concatenation of abbreviations splits back into exactly those abbreviations |
| Mods.FromStringOfLongS | ojsama.js:674-682 | a long s (ſ) upper-cases to S, so "ſo" gives SO |
| Mods.FromStringOfLigature | ojsama.js:674-682 | the "fl" ligature upper-cases to FL, so "hdﬂ" gives HD \| FL |
| Mods.FromStringOfSharpS | ojsama.js:674-682 | a sharp s upper-cases to "SS", a chunk that names no mod, so the mask is 0 |
| Mods.FromStringOfAbbreviations | ojsama.js:674-682 | a string spelling abbreviations in any case gives the OR of their bits |
| Text.Split | ojsama.js:517 | `split`: at least one part, and no part contains the separator |
| Text.JoinSplit | ojsama.js:517 | joining the parts of a split gives back the text |
| Text.SplitJoin | ojsama.js:517 | splitting a join of separator-free parts gives back the parts |
| Text.TrimStart | ojsama.js:520 | the result is a suffix, only whitespace was removed, and it starts with non-whitespace |
| Text.TrimEnd | ojsama.js:520 | the result is a prefix, only whitespace was removed, and it ends with non-whitespace |
| Text.TrimIsTrimOf | ojsama.js:520 | `trim` is a slice with only whitespace outside it and none at its ends |
| Text.TrimEnds | ojsama.js:520 | a trimmed line is empty or starts and ends with non-whitespace |
| Text.TrimUnique | ojsama.js:520 | padding a core with whitespace and trimming gives back the core |
| Text.TrimStartAllWhitespace | ojsama.js:520-522 | an all-whitespace line trims to the empty line that the filter drops |
| Text.TrimStartOfPadded | ojsama.js:520 | leading whitespace before a non-blank text is removed exactly |
| Text.TrimEndOfPadded | ojsama.js:520 | trailing whitespace after a non-blank text is removed exactly |
| Text.TrimIdempotent | ojsama.js:520 | trimming twice is trimming once |
| Text.SectionNameExact | ojsama.js:638 | `^\[([^\]]+)\]$` matches exactly the bracketed non-empty names without `]`, and captures the name |
| Text.KeyValue | ojsama.js:526-533 | a matched key is non-empty without `:`, and the value is non-empty on one line |
| Text.KeyValueShape | ojsama.js:527-532 | a match splits the line into key, `:`, whitespace and value |
| Text.KeyValueOfPair | ojsama.js:527-532 | `key: value` is read back as that key and that value |
| Text.HeaderDigits | ojsama.js:509 | a header match is the magic text followed by a non-empty run of digits |
| Text.DecimalRoundTrip | ojsama.js:509 | reading the decimal text of n gives n |
| Text.HeaderRoundTrip | ojsama.js:509 | the header written for version n is recognized and read back as n |
| Beatmaps.Beatmap.constructor | ojsama.js:366-399 | a new map holds the defaults of `reset` |
| Beatmaps.Beatmap.MaxCombo | ojsama.js:413-471 | the forward-scanning loop computes `MaxComboOf` of the map's fields |
| Beatmaps.ComboStep | ojsama.js:421-467 | one object of the loop: what it adds, plus the slider total of the rest from the new timing index, is the slider total from the old index; it fails only when there are no timing points and the map has a slider, and with no timing points a step that succeeds adds nothing |
| Beatmaps.AdvanceTiming | ojsama.js:425-450 | the while loop succeeds exactly when timing points exist; it stops at the last point at or before the object and recomputes pixels per beat there |
| Beatmaps.SliderTicks | ojsama.js:452-466 | the tick arithmetic, clamped at 0, is the slider's combo |
| Beatmaps.SvMultiplier | ojsama.js:436-440 | the multiplier is always positive |
| Beatmaps.PixelsPerBeat | ojsama.js:445-449 | pixels per beat are non-zero (positive for a positive sv); before format 8 they are `sv * 100` |
| Beatmaps.ScanFrom | ojsama.js:425-432 | the index only moves forward and stops before the first point later than the object |
| Beatmaps.SliderCombo | ojsama.js:454-466 | a slider's combo is never negative; with positive span it is `reps * ceil(span) + 1`, at least reps + 1 |
| Beatmaps.SliderTotalNonNegative | ojsama.js:466 | the slider total is never negative |
| Beatmaps.SliderTotalWithoutSliders | ojsama.js:419-421 | with no sliders the slider total is 0 |
| Beatmaps.MaxComboWithoutSliders | ojsama.js:413-471 | with no sliders the max combo is circleCount + spinnerCount |
| Beatmaps.MaxComboAtLeastBase | ojsama.js:414-466 | the max combo is never below circleCount + spinnerCount |
| Beatmaps.MaxComboFailsOnlyWithoutTiming | ojsama.js:425-438 | maxCombo throws exactly when a slider exists and there are no timing points |
| Beatmaps.ActivePoint | ojsama.js:425-432 | the reference choice of timing point is a valid index |
| Beatmaps.ScanPasses | ojsama.js:425-432 | starting the scan later, at a point already passed, ends at the same index |
| Beatmaps.ForwardScanFindsActivePoints | ojsama.js:421-450 | on time-ordered objects and timing points, the forward scan equals looking up each slider's active point |
| Beatmaps.ForwardScanSlider | ojsama.js:421-450 | the same when the first object is a slider |
| Beatmaps.ForwardScanOther | ojsama.js:421-450 | the same when the first object is not a slider |
| Beatmaps.OldFormatIgnoresMultiplier | ojsama.js:442-449 | before format 8 the total uses `sv * 100` for every slider, ignoring the inherited multiplier |
| Parser.Prepare | ojsama.js:515-522 | no more lines are kept than were read, and each kept line is non-empty with no whitespace at either end |
| Parser.PrepareAppend | ojsama.js:517-522 | the filter works line by line: it distributes over concatenation |
| Parser.PrepareOne | ojsama.js:515-522 | a single line is dropped exactly when it is a comment or blank; otherwise its trim is kept |
| Parser.SetMeta | ojsama.js:548-551 | `map[prop] = value`: the named property holds the value (the mode as text), every other property and every other field keeps its value |
| Parser.MetadataLine | ojsama.js:545-553 | a `Key: value` line whose key is in the property table sets that property to the value and keeps the other ones; a line without a key:value pair or with another key changes nothing |
| Parser.SetDiff | ojsama.js:567-570 | `map[prop] = parseFloat(value)`: the named property holds the number, every other field keeps its value |
| Parser.DifficultyLine | ojsama.js:564-572 | a `Key: value` line whose key is in the difficulty table sets that property to parseFloat of the value and keeps the other ones; any other line changes nothing |
| Parser.MetadataLineOfPair | ojsama.js:527-553 | a line written as `Key:`, whitespace and a value, with a key of the table, sets exactly that property to the value |
| Parser.DifficultyLineOfPair | ojsama.js:527-572 | a line written as `Key:`, whitespace and a value, with a key of the table, sets exactly that property to parseFloat of the value |
| Parser.SetMetaField | ojsama.js:550-551 | the in-place write is `SetMeta` of the old map |
| Parser.ParseMetadata | ojsama.js:545-553 | the in-place handler is `MetadataLine` of the old map |
| Parser.SetDiffField | ojsama.js:569-571 | the in-place write is `SetDiff` of the old map |
| Parser.ParseDifficulty | ojsama.js:564-572 | the in-place handler is `DifficultyLine` of the old map |
| Parser.ReadTiming | ojsama.js:575-584 | the timing point read is `TimingLine` of the line |
| Parser.ParseTimingPoint | ojsama.js:574-587 | the in-place handler appends that timing point |
| Parser.PushTiming | ojsama.js:586 | the push appends exactly one timing point |
| Parser.ReadHitObject | ojsama.js:588-611 | the object read is `HitObjectOf` of the line, with a slider's repetitions and distance from fields 6 and 7 |
| Parser.ParseHitObject | ojsama.js:589-614 | the in-place handler is `HitObjectLine` of the old map |
| Parser.PushHitObject | ojsama.js:599-613 | the push bumps the right counter and appends the object |
| Parser.ParseLine | ojsama.js:638-645 | one line in place is `LineStep`: a section switch or the current section's handler |
| Parser.Parse | ojsama.js:514-649 | the fresh map holds exactly `ParseOf` of the file, and the call fails exactly when `ParseOf` does, with its error |
| Parser.SectionLineOnlySwitches | ojsama.js:638-643 | a `[Name]` line changes only the current section |
| Parser.UnhandledSectionIgnored | ojsama.js:645 | a line in a section without a handler changes nothing |
| Parser.HitObjectLineAppendsOne | ojsama.js:599-613 | a HitObjects line appends one object. It bumps at most one counter: circle, else spinner, else slider. Nothing else changes |
| Parser.OnlySlidersGetSliderData | ojsama.js:599-611 | only sliders get repetitions and distance, read from the slide count (field 6) and the length (field 7); only circles get circle data |
| Parser.TimingChangeFlag | ojsama.js:582-584 | `change` is false exactly when a 7th field exists and trims to "0" |
| Parser.LineStepInvariant | ojsama.js:638-645 | a line keeps the format version and the counter-tally invariant, and only extends the objects |
| Parser.RunInvariant | ojsama.js:626-646 | the same over any run of lines: objects are appended in input order |
| Parser.ParseOfOutcome | ojsama.js:624-648 | the parse fails exactly on a bad header, gives the default map on an empty file, and takes the header's version; counters tally the objects |
| Parser.PrepareAsWritten | ojsama.js:515-522 | as written, the filter keeps only lines the comment pattern matches; kept lines are non-empty |
| Parser.PrepareClean | ojsama.js:515-522 | clean lines pass the intended filter unchanged and are all dropped by the written one |
| Parser.PreparedJoin | ojsama.js:517-522 | a file of clean lines splits back into exactly those lines |
| Parser.HeaderLineClean | ojsama.js:509 | the header line for version n is clean and matches the header pattern |
| Parser.HitObjectsSectionName | ojsama.js:638-642 | `[HitObjects]` names the HitObjects section |
| Parser.HitObjectsSectionLine | ojsama.js:638-642 | that line only switches to the HitObjects section |
| Parser.HitObjectsRun | ojsama.js:638-645 | a hit-object line after it appends its object |
| Parser.SliderFieldsAsWritten | ojsama.js:590-611 | on a slider line of eight or more fields, the written destructuring reads the repetitions from the length field and the distance from the field after it, where the intended reader takes the slide count and the length |
| Parser.AsWrittenIgnoresValidFile | ojsama.js:515-633 | for a valid file, the written parse returns the empty default map; the intended one reads the header version and the object |
| Stats.ArMsRoundTrip | ojsama.js:714-727 | the AR to ms conversion and back are inverse |
| Stats.MsToArAntitone | ojsama.js:725-727 | a longer window means a lower AR |
| Stats.ArToMsAntitone | ojsama.js:714-716 | a higher AR means a shorter window |
| Stats.RecalculateAR | ojsama.js:708-730 | with speed 1 the AR lies in [0,10]; with speed in [0.75,1.5] it lies in [-5,11] |
| Stats.RecalculateARIdentity | ojsama.js:708-730 | an AR in [0,10] with no speed or multiplier change is unchanged |
| Stats.RecalculateARMonotone | ojsama.js:708-730 | the recalculated AR is non-decreasing in the base AR |
| Stats.RecalculateARFaster | ojsama.js:722-727 | a faster speed never lowers the AR |
| Stats.RecalculateOD | ojsama.js:732-740 | with speed 1 the OD lies in [0,10]; with speed in [0.75,1.5] it lies in [-26.5/6, 66.5/6] |
| Stats.RecalculateODRoundsUp | ojsama.js:732-740 | with no change, the OD is rounded up to a multiple of 1/6, since the window is a whole number of ms steps |
| Stats.RecalculateODMonotone | ojsama.js:732-740 | the recalculated OD is non-decreasing in the base OD |
| Stats.SpeedBitsAreMapChanging | ojsama.js:688-689 | DT, NC and HT are all map-changing |
| Stats.WithModsOfNoMapChange | ojsama.js:767-772 | without HR, EZ, DT, HT or NC the stats are copied unchanged with speed 1 |
| Stats.WithModsOfSpeed | ojsama.js:774-776 | the speed is 1.5 with DT or NC, times 0.75 with HT |
| Stats.WithModsOfKeepsFalsy | ojsama.js:782-799 | an absent or zero ar, od, hp or cs is left as it is |
| Stats.WithModsOfCaps | ojsama.js:790-799 | the adjusted cs and hp are at most 10 |
| Stats.WithModsOfRange | ojsama.js:782-788 | without a speed mod the adjusted ar and od lie in [0,10] |
| Stats.StdBeatmapStats.constructor | ojsama.js:745-760 | a new stats object has the given values, speed 1 and an empty memo |
| Stats.StdBeatmapStats.WithMods | ojsama.js:762-802 | a cached mods value returns the cached object unchanged. A new one returns a fresh object holding `WithModsOf` of this object's stats and records it in the memo. This object's stats are untouched |
| Stats.StdBeatmapStats.Adjust | ojsama.js:774-801 | the in-place adjustment turns the copy into `WithModsOf` of it |
| Strain.SpeedWeightKnots | ojsama.js:974-985 | the speed weight is 0.95 at 45, 1.2 at 90, 1.6 at 110 and 2.5 at 125 |
| Strain.SpeedWeightBounds | ojsama.js:974-985 | the weight lies in [0.95, 2.5]: 0.95 up to 45, 2.5 above 125 |
| Strain.SpeedWeightMonotoneLipschitz | ojsama.js:975-985 | the weight is non-decreasing and moves at most 0.06 per unit, so it is continuous |
| Strain.WithStrain | ojsama.js:1025-1026 | the write sets the strain of the given type |
| Strain.CalcStrainSingle | ojsama.js:1012-1017 | the speed pass marks a moving object single exactly when it is more than 125 from its predecessor; otherwise the flag is kept |
| Strain.CalcStrainShape | ojsama.js:998-1026 | only the strain of the pass's type and the flag change; a non-moving object only decays its predecessor's strain |
| Strain.SpacingValueBounds | ojsama.js:1012-1023 | the spacing term is non-negative, and at most 3500 for speed |
| Strain.CalcStrainBounds | ojsama.js:1005-1026 | strains stay non-negative; a speed strain grows by at most 70 over its decayed predecessor, since the divisor is at least 50 |
| Strain.StrainPass | ojsama.js:1051-1057 | the pass keeps the length and the first object; every later object is CalcStrain of itself and the already updated predecessor; no hit object or position changes |
| Strain.StrainedPrefix | ojsama.js:1051-1057 | an object's strain depends only on the objects up to it |
| Strain.Flush | ojsama.js:1059-1075 | the inner while loop only appends maxima and moves the window end forward past t; it pushes nothing when t is inside; it keeps the end at step × (windows + 1) |
| Strain.WindowEndGrows | ojsama.js:1046-1074 | after a push the window end is at least two steps |
| Strain.ScanEnd | ojsama.js:1046-1074 | the open window always ends at step × (pushed windows + 1) |
| Strain.ScanCovers | ojsama.js:1059-1075 | the open window covers every object seen |
| Strain.ScanPushedPast | ojsama.js:1059-1075 | a window is pushed only when some object lies past it |
| Strain.FlushKeepsEnd | ojsama.js:1059-1075 | closing no window leaves the scan as it was |
| Strain.OneWindowPushesNothing | ojsama.js:1046-1079 | the window still open after the last object is never pushed: objects within one window push nothing |
| Strain.Insert | ojsama.js:1084 | inserting into a descending list keeps it descending and adds exactly that value |
| Strain.SortDesc | ojsama.js:1084 | the sort is descending and a permutation of the strains |
| Strain.WeightedSumFromBounds | ojsama.js:1081-1091 | the sum with weights w, 0.9w, … of values in [0, M] lies between the first term and 10Mw |
| Strain.WeightedSumBounds | ojsama.js:1081-1091 | the weighted sum of values in [0, M] lies between the first value (the largest, once sorted) and 10M |
| Strain.TotalShape | ojsama.js:929-931 | the total is 1.5 × the larger plus 0.5 × the smaller rating, so never below either |
| DifficultyEngine.RadiusSign | ojsama.js:1101-1102 | the radius is 32 at cs 5, positive below cs 85/7 and zero exactly there |
| DifficultyEngine.NormalizerVector | ojsama.js:1100-1114 | the same factor on both axes, and it scales a circle of any size below 85/7 to radius 52, or up to 10% more when the radius is under 30 |
| DifficultyEngine.NormalizedRadius | ojsama.js:1100-1114 | a normalized radius is 52, scaled up by at most 10% for circles of radius below 30 |
| DifficultyEngine.InitObjectsOf | ojsama.js:1121-1161 | one object per map object: it wraps the map object at the same index, with zero strains and no single flag; a spinner sits at the scaled centre, a circle or slider at its scaled position |
| DifficultyEngine.InitObjectsAsWritten | ojsama.js:1133-1138 | as written, an existing slot keeps its old hit object; only slots past the old length agree with `InitObjectsOf`; all strains restart at zero |
| DifficultyEngine.InitObjectsAsWrittenIsStale | ojsama.js:1133-1140 | rerunning on a different map of the same length keeps the previous map's objects |
| DifficultyEngine.SinglesUpTo | ojsama.js:938-944 | at most one single per object after the first |
| DifficultyEngine.ThresholdUpTo | ojsama.js:946-954 | at most one threshold count per object after the first |
| DifficultyEngine.StrainedKeeps | ojsama.js:1002-1026 | the aim pass keeps the single flag the speed pass set |
| DifficultyEngine.SinglesAfterPasses | ojsama.js:916-918 | after both passes an object is single exactly when it moves and lies more than 125 from its predecessor |
| DifficultyEngine.ModdedStatsShape | ojsama.js:909-913 | the modded stats keep a usable cs and a strain step of at least 1 |
| DifficultyEngine.RatingOfShape | ojsama.js:897-957 | a rating keeps one object per map object, mixes the total from aim and speed, and marks singles as the speed pass does |
| DifficultyEngine.RatingWithoutMapChange | ojsama.js:909-913 | without map-changing mods the speed is 1 and cs is the map's |
| DifficultyEngine.StdDifficulty.constructor | ojsama.js:850-862 | a new calculator has no objects and no map, mods 0, threshold 125 and zero results |
| DifficultyEngine.StdDifficulty.Calc | ojsama.js:897-957 | the map, mods and threshold fall back to the previous call's when not given; with no map the call fails; otherwise the results are `RatingOf` the map |
| DifficultyEngine.StdDifficulty.Rate | ojsama.js:909-931 | the in-place computation gives `RatingOf` the map, mods and threshold |
| DifficultyEngine.StdDifficulty.RatePasses | ojsama.js:916-955 | the two passes, star values and singletap counts give `RatingFrom` the initial objects |
| DifficultyEngine.StdDifficulty.InitObjects | ojsama.js:1121-1161 | the objects array becomes `InitObjectsOf` the map's objects; nothing else changes |
| DifficultyEngine.StdDifficulty.CalcIndividual | ojsama.js:1041-1092 | the objects take one strain pass in place, and the result is the weighted sum of the sorted window maxima |
| DifficultyEngine.StdDifficulty.CountSingles | ojsama.js:935-955 | the counters are the singles and the threshold-crossing intervals; the rest is unchanged |
| DifficultyEngine.PassedUpToEnds | ojsama.js:1051-1057 | the part-way pass starts with the objects and ends with the full pass |
| DifficultyEngine.PassAdvance | ojsama.js:1051-1057 | one in-place `_calc_strain` advances the part-way pass by one object |
| DifficultyEngine.StrainAndScan | ojsama.js:1045-1079 | the loop leaves the objects strained and the window scan after all of them |
| DifficultyEngine.StrainAndScanOne | ojsama.js:1051-1079 | one iteration advances both the pass and the scan by one object |
| DifficultyEngine.CloseWindows | ojsama.js:1059-1075 | the while loop computes `Flush` |
| DifficultyEngine.WeightedDifficulty | ojsama.js:1081-1091 | the difficulty is the weighted sum of the strains sorted descending |
| DifficultyEngine.SumWeighted | ojsama.js:1086-1089 | the for loop computes the 1, 0.9, 0.81, … weighted sum |
| DifficultyEngine.CountSinglesIn | ojsama.js:938-955 | the for loop counts singles and threshold-crossing intervals of moving objects |
| DifficultyEngine.ModeKeyShared | ojsama.js:1194-1209 | the number 0 and the text "0" share a cache slot although they are different modes |
| DifficultyEngine.Difficulty.constructor | ojsama.js:1168-1174 | a new cache is empty and has no map |
| DifficultyEngine.Difficulty.Calc | ojsama.js:1187-1213 | with no map the call fails. A cached mode reuses its calculator and leaves the cache alone; an uncached standard mode adds exactly one fresh calculator; any other mode fails. The call succeeds exactly when the chosen calculator has a map (the one given or its own earlier one), and then that calculator holds `RatingOf` that map under the given or earlier mods and threshold |
| Accuracy.AccuracyOf | ojsama.js:1281-1297 | the value lies in [0,1]; it throws exactly when n300 is missing and no object count is given |
| Accuracy.AccuracyOfPlausible | ojsama.js:1291-1296 | for plausible counts the clamp never acts: the value is the weighted share of 300s |
| Accuracy.AccuracyOfFillsN300 | ojsama.js:1284-1292 | with n300 missing, the object count fills it in |
| Accuracy.AccuracyOfIgnoresObjectCount | ojsama.js:1290-1292 | with n300 given, the object count argument is ignored |
| Accuracy.SolveShape | ojsama.js:1243-1271 | solved counts add up to the object count, misses are capped at it, and 100s or 50s fit beside the 300s |
| Accuracy.SolveNaN | ojsama.js:1243-1251 | the solver's accuracy is NaN exactly with no objects and no negative misses; it never asks for an object count |
| Accuracy.TargetPercentBounds | ojsama.js:1243-1251 | the clamped target never exceeds the best reachable accuracy, (n − misses) / n |
| Accuracy.HundredsBranch | ojsama.js:1255-1257 | the rounded 100s solution is within 1/(3n) of the target |
| Accuracy.FiftiesBranch | ojsama.js:1262-1271 | the rounded 50s solution is within 5/(12n) of the target, unless every non-miss is a 50 |
| Accuracy.SolveReachesTarget | ojsama.js:1238-1272 | the intended solver's counts are plausible and within 1/(3n) (100s) or 5/(12n) (50s) of the target |
| Accuracy.TwentyPercentOfHundred | ojsama.js:1250-1257 | 100 objects at 20% are 80 objects short, so 120 100s do not fit |
| Accuracy.SolveAsWrittenMissesTarget | ojsama.js:1264-1266 | as written, 100 objects at 20% give 100 50s, an accuracy of 1/6 |
| Accuracy.SolveHitsTarget | ojsama.js:1264-1266 | the intended factor gives 4 300s and 96 50s, exactly 20% |
| Accuracy.CountsOf | ojsama.js:1225-1272 | without a percent the defaulted counts are kept; a percent without an object count throws |
| Accuracy.StdAccuracy.FromCounts | ojsama.js:1225-1236 | the constructor stores the counts |
| Accuracy.StdAccuracy.Make | ojsama.js:1225-1273 | the constructor leaves a fresh object holding `CountsOf` the parameters, or fails with its error |
| Accuracy.StdAccuracy.SolveFor | ojsama.js:1238-1272 | the percent branch sets the counts to `Solve` of the old 50s and misses, or reports its error |
| PerformanceInputs.ManualFigures | ojsama.js:1371-1391 | a maxCombo that is not positive throws first, then any missing or zero count, then too small an object count; AR and OD default to 5 |
| PerformanceInputs.ScoreV1Accuracy | ojsama.js:1507-1518 | the score-v1 accuracy lies in [0,1] |
| PerformanceInputs.Judge | ojsama.js:1437-1450 | the counts are those the accuracy constructor leaves, and the accuracy is their value |
| PerformanceInputs.Dispatch | ojsama.js:1504-1529 | version 1 uses the score-v1 accuracy and the circle count; version 2 uses the accuracy and counts every object; any other version is refused |
| PerformanceInputs.Resolve | ojsama.js:1403-1529 | missing stars throw. Otherwise the defaults are missCount 0, combo = maxCombo − misses and scoreVersion 1. The counts come from the solver, and version 1 or 2 is dispatched |
| PerformanceInputs.MapSkipsManualChecks | ojsama.js:1360-1391 | with a map the manual checks never fire, and the object count is the map's |
| PerformanceInputs.StarsRequiredOnlyByHand | ojsama.js:1393-1405 | stars are missing exactly when neither stars nor a map is given and the parameters lack one |
| PerformanceInputs.DefaultCountsFillObjects | ojsama.js:1407-1444 | without n300 or a percent, n300 is the remainder and the counts fill the object count |
| PerformanceInputs.SolvedCountsFillObjects | ojsama.js:1437-1448 | with a percent the solved counts fill the object count, with misses capped |
| PerformanceInputs.ScoreV1AllCircles | ojsama.js:1504-1518 | with only circles, score v1 changes nothing |
| PerformanceInputs.StdPPv2.constructor | ojsama.js:1309-1317 | a new calculator has no computed accuracy |
| PerformanceInputs.StdPPv2.Calc | ojsama.js:1341-1450 | the result is `InputsOf` the parameters, and the stored accuracy holds the counts used |
| PerformanceInputs.StdPPv2.Settle | ojsama.js:1403-1450 | after the figures and stars are known, the result is `Resolve` |
| PerformanceInputs.StdPPv2.SettleRated | ojsama.js:1407-1529 | with both star ratings known, the result is `Finish` and the stored accuracy holds the counts |
| PerformanceInputs.SwitchScoreVersion | ojsama.js:1504-1529 | the switch computes `Dispatch` |

## Left out

- Reading files, the console warning shim, the export shim, `toString`, `toFixed` and the usage text in the header comment are I/O or rendering.
- The generic `ppv2` helper is left out. It only creates a `StdPPv2` and calls `calc`, which is modelled.
- The pp formulas are left out: `_base`, the length bonus with `log10`, the miss, combo, AR, OD, HD and FL factors, and the power-1.1 total. They are floating-point chains over opaque `pow` and `log10`. `StdPPv2.Calc` stops at the inputs of these formulas. The `mapstats` that calc builds only feeds them.
- `Math.pow`, `Math.sqrt`, `parseFloat` and `parseInt` are parameters, not definitions. Reference numbers such as star and pp values of sample maps cannot be reproduced.
- Floating-point rounding, infinities and NaN are not modelled. Exact reals are used. The exception is the 0 / 0 accuracy, which is `Failure(NotANumber)`. A zero denominator with a non-zero numerator gives the clamped infinity.
- Beatmaps.Beatmap.MaxCombo requires `sv != 0` and that every object with the slider bit carries slider data with non-zero repetitions. Without these the source goes wrong in ways the model does not follow. A zero `sv` or zero repetitions divides by zero and carries an infinity or NaN into the combo. The parser gives an object with both the circle and slider bits circle data, whose missing distance makes the combo NaN. It gives an object with both the spinner and slider bits (type 10) no data, and `sl.distance` on `null` throws a TypeError.
- DifficultyEngine.StdDifficulty.Calc requires the map's own cs to differ from 85/7, where the radius is zero. With a map-changing mod (HR, EZ, DT, HT or NC) the radius is taken from the modded cs, which is at most 10, so the source also rates a map with cs 85/7 under such mods; the requires refuses those calls too. This cs is reachable only with exact reals. The member also requires every circle and slider to carry a position.
- Strain.Individual requires a strain step of at least 400 ms × speed ≥ 1, so the window loop terminates. The mods can only give speeds of 0.75, 1, 1.125 and 1.5.
- Strain.WeightedSumBounds states the geometric-series bound 10 × M rather than an exact value. The sum has no closed form over arbitrary strains.
- Parser.ParseOf stores the header version as the number its digits spell. The source stores the captured string. Its only use, `formatVersion < 8`, converts the string to the same number.
- A zero `mods` parameter falls back to the previous call's value. This is the same as an absent one, as JavaScript `||` does.
- DifficultyEngine.StdDifficulty.Calc falls back to the stored `singletapThreshold` when none (or zero) is given, which is the evident intent. As written, the `||` falls back to the function's own hoisted `var`, which is still `undefined`. So an absent or zero threshold stores `undefined`, `interval >= undefined` is always false, and `nsingles_threshold` stays 0; a given threshold is never carried to the next call.
- Zero slider, circle or object counts are refused by the manual checks of `StdPPv2.calc`, as written.
- `MOD_CONSTANTS.string` is not modelled. It also prints the helper keys `speedChanging` and `mapChanging`, so its output does not round-trip through `fromString`.
- Several statements of the source throw before doing their work. Each is modelled by its evident intent:
  - `parseDifficulty` calls the property table as a function, then reads the metadata table. It is modelled as a key:value lookup in the difficulty table.
  - `parseHitObjects` writes to `this.map`. It is modelled as writing to the map being parsed.
  - `.with_mods` is called on the stats object, which has `withMods`. The model calls `withMods`.
  - `strains.SOrt` is modelled as `sort`.
  - `throw new {…}()` for an unsupported score version is modelled as the `UnsupportedScoreVersion` error.
  - The export line `osu.diff = diff` refers to an undefined name. It is plumbing outside the model.
- DifficultyEngine.Difficulty.Calc keeps the source's strict mode test. A parsed map's mode is the text "0", which is refused unless a numeric standard map has been rated first, because both share the key "0" (`ModeKeyShared`).
- DifficultyEngine.Difficulty.Calc: `this.calculators` is an array, so a mode text that names an inherited array member with a truthy value (`push`, `map`, `constructor` and the like) finds that member instead of a calculator, and `calculator.calc` then throws a TypeError. The model reports `UnsupportedMode` for these modes; both fail, with different errors.
- Parser.UnhandledSectionIgnored: the handler table is a plain object, so a section named after an inherited `Object.prototype` member finds that member, which is called on each later line with no receiver. `valueOf`, `hasOwnProperty`, `propertyIsEnumerable`, `toLocaleString`, `__defineGetter__`, `__defineSetter__`, `__lookupGetter__` and `__lookupSetter__` then throw a TypeError, and so does `__proto__`, which is not a function. `constructor`, `toString` and `isPrototypeOf` return without effect. The model ignores lines in all of these sections, so it parses a file that has a line under one of the throwing sections where the source throws.
- Parser.MetadataLine and Parser.DifficultyLine: a key such as `constructor` also finds an inherited member in the property tables. The source then writes an extra property under that member's text; no field of the model changes.
- Mods.Upper maps a to z and the characters whose upper-case form holds an ASCII letter (ß, ſ, ı, ŉ, ǰ, ẖ, ẗ, ẘ, ẙ, ẚ and the ligatures ﬀ to ﬆ), and keeps every other character as it is. JavaScript upper-cases more characters, such as é to É or ΐ to three characters, so the modelled string can differ from JavaScript's. Those forms hold no `\w` character and cannot spell NOMOD, so `FromString` gives the same mask.
- Aliasing between a `StdDifficulty`'s hit objects and the map's is not modelled: difficulty objects are values that hold a copy of their hit object. The source never mutates a hit object after parsing.

## Findings

| source | as written | input that shows it | evidently intended | confidence | as-written member | corrected member |
|---|---|---|---|---|---|---|
| ojsama.js:515-633 | The filter keeps only lines matching the comment pattern, and the header check throws when the header matches (and destructures null when not), so no real file parses | `osu file format v14`, `[HitObjects]`, one hit-object line, joined by newlines: the written parse returns the empty default map | Drop comment lines; throw only when the first line is not a header; read the version | not executed | Parser.AsWrittenIgnoresValidFile | Parser.ParseOfOutcome |
| ojsama.js:1133-1138 | An existing difficulty-object slot is rebuilt around its old hit object, so a second map of the same length is rated with the first map's objects | One calculator, `calc` on map A, then `calc` on a different map B with as many objects | Rebuild every slot around `map.objects[i]` | not executed | DifficultyEngine.InitObjectsAsWrittenIsStale | DifficultyEngine.InitObjectsOf |
| ojsama.js:1264-1266 | The 50s estimate multiplies by 0.5; solving the accuracy equation for 50s needs 0.2, so the solver overshoots | percent 20, 100 objects, no misses: the written solver gives 100 50s, accuracy 1/6 | n50 = round(−6 × deficit × 0.2), which gives 4 300s and 96 50s, exactly 20% | not executed | Accuracy.SolveAsWrittenMissesTarget | Accuracy.SolveReachesTarget |
| ojsama.js:590-611 | The line is destructured with three holes after `type`, so a slider's repetitions come from field 7 and its distance from field 8; in the .osu format those are the pixel length and the edge sounds, while the slide count is field 6 and the length field 7 | `64,192,1000,2,0,B\|200:192,1,140`: the repetitions are parseInt("140") and the distance parseFloat(undefined) | Read repetitions from field 6 and distance from field 7 | not executed | Parser.SliderFieldsAsWritten | Parser.OnlySlidersGetSliderData |
