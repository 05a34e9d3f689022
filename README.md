# HarmonicDensity in Dafny

A model of the exact-arithmetic core of HarmonicDensity. This tool measures how dense a chord is for a group of instruments. The model covers seven pieces of the program:

- **The microtonal pitch model** (`densidade_intervalar.py`):
  - note strings such as `C#+4` become positions on a scale of 24 steps per octave;
  - every unordered pair of positions becomes an interval string such as `M3 + 1 oitava(s) (intervalo 32)`;
  - the step count is read back out of that string, and its gaussian decay is summed over all pairs.
- **The two spelling normalisers:**
  - the table-driven flat-to-sharp rewrite of `Main.py`;
  - the character-replacing `converter_notacao` of `flauta.py`.
- **Two numberings:** the MIDI numbering of `Main.py` (with half numbers for quarter tones) and the integer numbering `nota_para_int` of `flauta.py`.
- **The flute's spectral table** (`flauta.py`): lookups, per-note maxima, and the maximum possible density of a set of notes.
- **The "Calcular" handler of `Main.py`**, lifted out of the form. Each note's density is scaled by the square root of its player count. These densities are combined with the interval density and with the spectral spread into the weighted, refined and total densities, including both pass-through guards.
- **The nine-level dynamic curve** of `Den_alg_Lin_10.py`: the pppp/ffff clamps and the assembly of the curve.
- **Spectral moments and note naming:**
  - the spectral moments of `advanced_density_analysis.py` (centroid, variance, third moment, undefined results);
  - the note naming of `plot_metr_espectrais.py`;
  - the mass, volume and mean-interval densities of `density_calculations.py`.

## How the model is set up

- **Real numbers:** Python floats are modelled as Dafny `real`s. NaN is `None` in an `Option<real>`.
- **Failures:** exceptions are `Err` values of `Outcomes.Result`. The `Error` datatype names the exception and its cause. The ValueError of `nota_para_posicao` for a class missing from `escala_microtonal` (`UnknownNoteClass`) and the KeyError of `note_to_midi` for a class missing from `note_base` (`UnknownMidiClass`) are separate values, as the handler reports them under different `except` clauses.
- **Parameters for what cannot be computed here:** the transcendental functions and the fitted regressors are function-typed parameters:
  - `decrescimo_gaussiano`;
  - `np.sqrt`;
  - `midi_to_frequency`;
  - the rounded `log2` of `frequency_to_note_name`;
  - the Gaussian-process and XGBoost predictions.

  The proofs assume only what each property needs, for example `decay(0) = 1` or `0 <= decay(n) <= 1`.
- **Imperative code:** the loops that build lists become methods with loop invariants, each proved equal to a specification function:
  - `obter_intervalos`;
  - `calcular_densidade_intervalar`, in both files;
  - `calculate_max_possible_density`;
  - the density loop of the handler;
  - `start_analysis`.

  The properties the source promises are proved about those functions.

**Modules:**
- Outcomes, Text and RealSeqs — shared helpers.
- Pairwise — pair enumeration.
- IntervalDensity — `densidade_intervalar.py`.
- Spelling — `converter_para_sustenido` and `note_to_midi`.
- Flute — `flauta.py`.
- Composer — the handler of `Main.py`.
- DynamicCurve — `Den_alg_Lin_10.py`.
- SpectralMoments — `advanced_density_analysis.py`.
- NoteNames — `plot_metr_espectrais.py`.
- DensityCalculations — `density_calculations.py`.

**Where the code surprises the reader:**
- `converter_notacao` keeps the letter when it replaces `b` by `#`. So `Db4` is read as `D#4`, which is not the enharmonic `C#4`. `Bb4` becomes `B#4`, which the table lacks, so its maximum density is 0. The model follows the code; see `Flute.ConverterNotacaoKeepsLetter` and `Flute.GetMaxNoteDensityOfMissingSharp`.
- `converter_para_sustenido` is not idempotent. `C+` becomes `B-`, which a second pass turns into `A#+`.
- It also moves `C-4` (MIDI 71.5) to `B#4` (MIDI 72).
- `E#-` is a class of the form's list, and the flute table has `E#-4`, `E#-5` and `E#-6`, but `note_base` lacks `E#-`. So the handler cannot price any chord that contains one of these notes: the KeyError of `note_to_midi` ends it, reported as a generic error rather than as an invalid note. See `Composer.QuarterFlatSharpEUnpriced`.

## Model

| member | source | states |
|---|---|---|
| IntervalDensity.MicrotonalScale | densidade_intervalar.py:13-28 | the `escala_microtonal` table, a constant; no contract of its own; specified by `ScaleOffsetsInRange`, `ScaleKeysAreNoteClasses` and `EnharmonicSpellings` |
| IntervalDensity.ScaleOffsetsInRange | densidade_intervalar.py:13-28 | every offset in `escala_microtonal` lies in 1..24 |
| IntervalDensity.ScaleKeysAreNoteClasses | densidade_intervalar.py:13-28 | every key of the scale is a string the class group `[A-G][#b]?[-+]?` matches |
| IntervalDensity.MatchNoteExact | densidade_intervalar.py:70 | the greedy parse yields `(cls, oct)` exactly when the pattern `([A-G][#b]?[-+]?)([0-9x])` matches at the start with those groups |
| IntervalDensity.NotePosition | densidade_intervalar.py:69-80 | the result is one of four outcomes: 1. no match gives a ValueError; 2. octave `x` gives no position (not an error); 3. a digit octave with an unknown class gives a ValueError; 4. otherwise the position is the class's table offset plus 24 times the octave digit, so it splits into octave `(p-1) div 24` and class offset `(p-1) mod 24 + 1` |
| IntervalDensity.PositionInOctave | densidade_intervalar.py:76-79 | a position lies in `[24·oct+1, 24·oct+24]` |
| IntervalDensity.PositionMonotone | densidade_intervalar.py:76-79 | positions are ordered by octave first, then by class offset |
| IntervalDensity.SpellingPosition | densidade_intervalar.py:74-79 | a scale class followed by a digit d is at offset + 24·d |
| IntervalDensity.EnharmonicSpellings | densidade_intervalar.py:13-28 | two classes with the same offset (Db/C#, Cb+/B#-, …) give the same position in every octave |
| IntervalDensity.NotePositionExamples | densidade_intervalar.py:69-80 | `C#+4` is 100; `E#+x` has no position |
| IntervalDensity.QuarterFlatSharpEPosition | densidade_intervalar.py:16 | `E#-4` is at position 106 |
| IntervalDensity.NotePositionErrorExamples | densidade_intervalar.py:77-78 | `E#+4` and `Cb4` match the pattern but their classes are missing |
| IntervalDensity.PatternMismatchExamples | densidade_intervalar.py:70-72 | `H4` and `C#` do not match the pattern |
| IntervalDensity.PositionsOf | densidade_intervalar.py:83 | the positions list exists iff every note parses; otherwise the error is that of the first note that fails, all earlier notes parsing; it has at most one position per note, each in 1..240; when every note has a position, the list is exactly those positions, in order |
| IntervalDensity.FirstFailure | densidade_intervalar.py:83 | the index at which the comprehension stops: every earlier note parses and the note there fails, or it is the length when none fails |
| IntervalDensity.PositionsOfAppend | densidade_intervalar.py:83 | over a concatenation, the first part's error wins, then the second part's; otherwise the position lists are joined in order |
| IntervalDensity.PositionsOfOne | densidade_intervalar.py:83 | one note gives its error, no positions for an `x` octave, or its one position |
| IntervalDensity.DroppedNote | densidade_intervalar.py:83 | a note with an `x` octave can be removed from anywhere in the list without changing the result |
| IntervalDensity.PositionBounds | densidade_intervalar.py:69-80 | every position a note gets lies in 1..240 |
| IntervalDensity.PlacedCons | densidade_intervalar.py:83 | a placed first note followed by the tail's positions keeps the length, order and range statements of the list |
| IntervalDensity.TraditionalName | densidade_intervalar.py:55-67 | no contract of its own; specified by `TraditionalNameShape`, `TraditionalNameInjective`, `TraditionalNameParens` and the three example lemmas |
| IntervalDensity.TraditionalNameShape | densidade_intervalar.py:55-67 | the name starts with the entry for `steps mod 24`, which is never `oitava`, and has an octave suffix iff `steps div 24 > 0`, that suffix being ` + <steps div 24> oitava(s)` |
| IntervalDensity.TraditionalNameInjective | densidade_intervalar.py:55-67 | different non-negative step counts get different traditional names |
| IntervalDensity.OctaveSuffixInjective | densidade_intervalar.py:65-66 | different octave counts give different suffixes |
| IntervalDensity.TraditionalNameExamples | densidade_intervalar.py:55-67 | 0 and 8 steps are `unisono` and `M3` |
| IntervalDensity.TraditionalNameOneOctaveExample | densidade_intervalar.py:55-67 | 24 steps are `unisono + 1 oitava(s)` |
| IntervalDensity.TraditionalNameTwoOctavesExample | densidade_intervalar.py:55-67 | 50 steps are `m2 + 2 oitava(s)` |
| IntervalDensity.TraditionalNameParens | densidade_intervalar.py:55-67 | every `(` in a traditional name is followed by `s`, so none starts `(intervalo ` |
| IntervalDensity.IntervalToNumber | densidade_intervalar.py:37-40 | no contract of its own; specified by `SearchAfterName`, `SearchLabelled` and `IntervalToNumberRoundTrip` |
| IntervalDensity.SearchAfterName | densidade_intervalar.py:37-40 | after such a name, the leftmost match of `\(intervalo (\d+)\)` is the marked number |
| IntervalDensity.SearchLabelled | densidade_intervalar.py:37-40 | after a name and a space, the search finds the marked number |
| IntervalDensity.IntervalToNumberRoundTrip | densidade_intervalar.py:37-40 | reading the step count back from an interval string gives the count written into it |
| IntervalDensity.IntervalStringsAt | densidade_intervalar.py:89 | the k-th interval string embeds the k-th pair distance |
| IntervalDensity.AppendRow | densidade_intervalar.py:87-89 | the inner loop appends the strings of the pairs `(i, j)` with `j > i` |
| IntervalDensity.ObterIntervalos | densidade_intervalar.py:82-90 | either a parse error, or one string per pair `i < j` of positioned notes, in loop order |
| IntervalDensity.SumIntervalDecay | densidade_intervalar.py:95-103 | the accumulation loop equals the decay summed over the embedded step counts |
| IntervalDensity.IntervalDensityOf | densidade_intervalar.py:92-103 | no contract of its own; specified by `CalcularDensidadeIntervalar`, `DensityOfFewNotes`, `DensityBounds` and `DensityOfUnison` |
| IntervalDensity.CalcularDensidadeIntervalar | densidade_intervalar.py:92-103 | the result is the decay summed over all pair distances, or the parse error |
| IntervalDensity.DensityOfFewNotes | densidade_intervalar.py:92-103 | fewer than two positioned notes give 0 |
| IntervalDensity.PairSumBounds | densidade_intervalar.py:95-103 | with decay in [0, 1], the decay sum over the pairs of k positions lies in [0, k·(k−1)/2] |
| IntervalDensity.PairSumUnison | densidade_intervalar.py:95-103 | equal positions with `decay(0) = 1` sum to exactly k·(k−1)/2 |
| IntervalDensity.DensityBounds | densidade_intervalar.py:92-103 | with decay in [0, 1], k positioned notes give a density in [0, k·(k−1)/2] |
| IntervalDensity.DensityOfUnison | densidade_intervalar.py:92-103 | k notes in unison with `decay(0) = 1` give exactly k·(k−1)/2 |
| IntervalDensity.AmplitudeOf | densidade_intervalar.py:105-109 | the result is: an error iff a note fails to parse; otherwise ≥ 0; an upper bound on every pair difference; 0 iff all positions coincide |
| IntervalDensity.WidestPair | densidade_intervalar.py:105-109 | max − min is the distance of some pair |
| IntervalDensity.AmplitudeIsWidestPair | densidade_intervalar.py:105-109 | the amplitude is the distance of some pair |
| Pairwise.PairCount | densidade_intervalar.py:86-89 | k positions give k·(k−1)/2 pairs |
| Pairwise.PairDistanceAt | densidade_intervalar.py:86-89 | every pair `i < j` contributes `abs(p[i] − p[j])` at a known index |
| Pairwise.PairDistanceElement | densidade_intervalar.py:86-89 | every entry is the distance of some pair `i < j` |
| Pairwise.PairDistancesZero | densidade_intervalar.py:86-89 | all distances are 0 iff all positions are equal |
| Pairwise.RowStep | densidade_intervalar.py:87-89 | one inner-loop pass appends the distance of pair `(i, j)` |
| Pairwise.RowEnd | densidade_intervalar.py:86-89 | a finished inner loop leaves the pairs of all earlier rows |
| Pairwise.PairDistanceBound | density_calculations.py:20-24 | no pair distance exceeds max − min |
| Pairwise.MaxOf | densidade_intervalar.py:109 | `max` is an element of the list and bounds it above |
| Pairwise.MinOf | densidade_intervalar.py:109 | `min` is an element of the list and bounds it below |
| Text.NatToString | densidade_intervalar.py:89 | `str(n)` is a non-empty run of digits with more than one digit iff n ≥ 10 |
| Text.DigitsValueOfToString | densidade_intervalar.py:37-40 | `int(str(n)) == n` |
| Text.NatToStringInjective | densidade_intervalar.py:89 | different counts are written differently |
| Text.IntToStringInjective | plot_metr_espectrais.py:14-16 | different octave numbers are written differently |
| Text.ReplaceAll | flauta.py:17-21 | `str.replace`; no contract of its own; specified by `ReplaceCharAt`, `ReplacePairShape` and `ReplacePairRemoves` |
| Text.ReplaceCharAt | flauta.py:17 | replacing one character by another keeps the length and changes exactly the matching positions |
| Text.ReplacePairShape | flauta.py:19-21 | replacing `xy` by `xz` keeps the length and the first character, and only turns some `y` into `z`; when `x` and `y` differ, exactly each `y` right after an `x` becomes `z` and every other character is kept |
| Text.ReplacePairRemoves | flauta.py:19-21 | after replacing `xy` by `xz`, no `xy` remains |
| Spelling.MatchLengths | Main.py:30 | the pattern `([A-Ga-g][#b]?[-+]?)([0-9x]?)` matches iff the string starts with a letter; the base group is a letter with an optional accidental and an optional quarter-tone mark, read as far as it can go (the next character could not extend it); the octave group is present iff a digit or `x` follows the base |
| Spelling.BaseGroupUnique | Main.py:30 | any base prefix that cannot be extended is the base group, so the greedy reading is the match |
| Spelling.ConverterParaSustenido | Main.py:15-37 | the result is: a ValueError iff the string is empty or does not start with a letter; otherwise the base group (rewritten when it is a key of `equivalencias`) followed by the octave group |
| Spelling.ConvertParts | Main.py:32-35 | the result is the (rewritten) base plus the octave group |
| Spelling.UnchangedSpellings | Main.py:33-35 | `C#4` and `Db-4` are returned unchanged |
| Spelling.LowerCaseSpelling | Main.py:30-35 | lower-case `db4` is accepted and not rewritten |
| Spelling.TrailingTextDropped | Main.py:30-35 | `E5th` becomes `E5` |
| Spelling.RewrittenSpellings | Main.py:20-35 | `Db4` → `C#4`, `F-3` → `E#+3`, `Gb` → `F#` |
| Spelling.InvalidSpellings | Main.py:36-37 | ``, `H4` and `#4` raise ValueError |
| Spelling.NotIdempotent | Main.py:23-25 | `C+` → `B-` and `B-` → `A#+` |
| Spelling.Equivalences | Main.py:20-27 | the `equivalencias` table, a constant; no contract of its own; specified by `EquivalencesAreSharp`, `EquivalencesAreBases`, `RewrittenSpellings` and `NotIdempotent` |
| Spelling.EquivalencesAreSharp | Main.py:20-27 | no rewritten base contains `b` |
| Spelling.EquivalencesAreBases | Main.py:20-30 | every rewritten base is read whole by the pattern's base group |
| Spelling.NoteToMidi | Main.py:42-54 | the result is one of four outcomes: 1. an empty note is an IndexError; 2. a non-digit last character is a ValueError; 3. an unknown class is a KeyError; 4. otherwise the number minus the class base is `12·(octave+1)` |
| Spelling.NoteBase | Main.py:43-50 | the `note_base` table, a constant; no contract of its own; specified by `NoteBaseInRange`, `NoteBaseOfChromatic` and `EnharmonicMidi` |
| Spelling.NoteBaseInRange | Main.py:43-50 | every class base lies in [0, 12] |
| Spelling.MidiInOctave | Main.py:51-53 | a number lies between `12·(oct+1)` and `12·(oct+2)` |
| Spelling.NoteToMidiOf | Main.py:51-53 | a class followed by a digit is numbered from the table, or is a KeyError |
| Spelling.EnharmonicMidi | Main.py:43-53 | spellings with equal table values (C#/Db, …) give the same number in every octave |
| Spelling.NoteToMidiExamples | Main.py:42-54 | `C4` = 60, `A4` = 69, `C#+4` = 61.5 |
| Spelling.NoteToMidiErrors | Main.py:51-53 | `E#-4` is a KeyError, `C` a ValueError, `` an IndexError |
| Spelling.NoteBaseOfChromatic | Main.py:43-50 | the k-th chromatic name has base k |
| Spelling.ChromaticMidi | Main.py:43-53 | the k-th chromatic name in octave d is `12·(d+1) + k` |
| Spelling.ChromaticName | plot_metr_espectrais.py:11-16 | `midi_to_note_name` names `12·(d+1) + k` by the k-th class and the digit d |
| Spelling.RewriteShiftsQuarterFlatC | Main.py:23 | the rewrite sends `C-4` (71.5) to `B#4` (72) |
| NoteNames.PitchClass | plot_metr_espectrais.py:15 | the class index is always in 0..11 |
| NoteNames.MidiToNoteName | plot_metr_espectrais.py:11-16 | `N/A` iff the number is outside 0..127; otherwise class name plus octave |
| NoteNames.SemitonsToNoteName | plot_metr_espectrais.py:18-25 | a whole number k of semitones in the MIDI range is named like MIDI 60 + k; for every k the name is never `N/A` and names MIDI 60 + k back |
| NoteNames.ParseIntOfToString | plot_metr_espectrais.py:16 | the octave numeral reads back as the octave |
| NoteNames.ClassIndexOfName | plot_metr_espectrais.py:8-9 | each chromatic name has its own index |
| NoteNames.NameRoundTrip | plot_metr_espectrais.py:14-16 | the number is recovered from its name |
| NoteNames.MidiNameRoundTrip | plot_metr_espectrais.py:11-16 | in range, the number is recovered from `midi_to_note_name` |
| NoteNames.MidiNameInjective | plot_metr_espectrais.py:11-16 | different MIDI numbers in range have different names |
| NoteNames.OctaveShift | plot_metr_espectrais.py:14-15 | m and m + 12 share the class and their octaves differ by 1 |
| NoteNames.NoteNameExamples | plot_metr_espectrais.py:11-25 | 60, 69, 0 and 127 are C4, A4, C-1 and G9; 128 and −1 are N/A; 0 semitones is C4, and −61 semitones is named B-2 although MIDI −1 is N/A |
| Flute.ConverterNotacao | flauta.py:7-23 | the conversion keeps the length |
| Flute.ConverterNotacaoSpec | flauta.py:16-23 | the conversion behaves as follows: 1. a note without `b` is unchanged; 2. the result contains no `b`; 3. every `b` becomes `#`; 4. every other character except `-` and `+` is kept; 5. with `-` in the input, no `#-` remains; 6. otherwise, with `+`, no `#+` remains; 7. with `b` and `-`, at each position a `b` becomes `#`, a `-` right after a `b` or `#` becomes `+`, and every other character, including every other `-` and `+`, is kept; 8. with `b` and `+` but no `-`, the mirror image of 7, with `+` after `b`/`#` becoming `-` |
| Flute.ConverterNotacaoIdempotent | flauta.py:16-23 | converting twice equals converting once |
| Flute.ConverterNotacaoKeepsSharps | flauta.py:23 | `C#4` is unchanged |
| Flute.ConverterNotacaoFlat | flauta.py:16-17 | `Db4` → `D#4` |
| Flute.ConverterNotacaoKeepsLetter | flauta.py:16-17 | the converted `Db4` numbers 51, while `C#4` numbers 49 |
| Flute.ConverterNotacaoFlatMinus | flauta.py:18-19 | `Db-4` → `D#+4` |
| Flute.ConverterNotacaoFlatPlus | flauta.py:20-21 | `Eb+5` → `E#-5` |
| Flute.ConverterNotacaoAb4 | flauta.py:16-17 | `Ab4` → `A#4` |
| Flute.QuarterSignFlipped | flauta.py:16-21 | turning `b` into `#` and then a sign after `#` into its opposite is, at each position, the rewrite of `ConverterNotacaoSpec` item 7 |
| Flute.QuarterSignAt | flauta.py:16-21 | the same composition at one position |
| Flute.Escala | flauta.py:112 | the `escala` table, a constant; no contract of its own; specified by `EscalaIsChromatic` and `NotaParaIntRoundTrip` |
| Flute.EscalaIsChromatic | flauta.py:113 | the k-th chromatic name has value k in `escala` |
| Flute.NotaParaInt | flauta.py:109-116 | the result is one of four outcomes: 1. an empty note is an IndexError (not caught); 2. a non-digit octave is a ValueError; 3. an unknown class is a ValueError; 4. otherwise the value lies in `[12·oct, 12·oct+11]` and is congruent to the class value mod 12 |
| Flute.NotaParaIntRoundTrip | flauta.py:112-114 | the k-th class in octave d numbers `k + 12·d`, which is the MIDI name of that note minus 12 |
| Flute.MaxSample | flauta.py:167 | the maximum of the pp/mf/ff values is one of them and bounds all three |
| Flute.TableRow | flauta.py:29-106 | the rows of `spectral_data`, in order; no contract of its own; specified by `SpectralKeysHaveNoFlat`, `KeysHaveNoFlat` and `SpectralEntryOfASharp4` |
| Flute.SpectralEntry | flauta.py:29-106 | `spectral_data[nota]` as a first-match lookup; no contract of its own; specified by `LookupFound`, `LookupMissing` and `LookupIsKey` |
| Flute.LookupFound | flauta.py:123 | the lookup returns the first row whose key is the note |
| Flute.LookupMissing | flauta.py:123 | a note that is no row's key is not found |
| Flute.LookupIsKey | flauta.py:123 | a found entry is the entry of a row keyed by the note |
| Flute.SpectralKeysHaveNoFlat | flauta.py:29-106 | no key of `spectral_data` contains `b` |
| Flute.KeysHaveNoFlat | flauta.py:29-106 | row by row, no key contains `b` |
| Flute.CalcularDensidade | flauta.py:120-125 | no contract of its own; specified by `DensityOfEntry`, the three `CalcularDensidade…` example lemmas and `DensityWithinMax` |
| Flute.DensityOfEntry | flauta.py:120-125 | a value exists iff the note and the dynamic exist; otherwise ValueError; the value is one of pp/mf/ff, between 0 and the maximum |
| Flute.CalcularDensidadeFound | flauta.py:120-125 | `A4` at `mf` is 9.739 |
| Flute.CalcularDensidadeMissingDynamic | flauta.py:120-125 | `A4` at `p` is a ValueError |
| Flute.CalcularDensidadeMissingNote | flauta.py:120-125 | `Bb4` is not a key: ValueError |
| Flute.PredictIntermediateDynamics | flauta.py:129-149 | predictions exist for exactly the nine levels, each the regressor's value at that level |
| Flute.GetMaxNoteDensity | flauta.py:161-168 | no contract of its own; specified by `EntryBounds`, `MaxNoteDensityBounds`, `DensityWithinMax`, `GetMaxNoteDensityOfFlat` and `GetMaxNoteDensityOfMissingSharp` |
| Flute.EntryBounds | flauta.py:161-168 | with a non-negative scale, an entry's maximum is ≥ 0 and bounds its scaled density at every dynamic |
| Flute.MaxNoteDensityBounds | flauta.py:161-168 | 0 when the converted note is missing, never negative |
| Flute.MaxOfKey | flauta.py:165-167 | for a key of the table, the maximum is that key's own entry's maximum |
| Flute.EntryWithinMax | flauta.py:166-167 | a density found in an entry, scaled, is between 0 and that entry's maximum |
| Flute.DensityWithinMax | flauta.py:161-168 | what `calcular_densidade` finds, scaled, is between 0 and `get_max_note_density` of the same note |
| Flute.GetMaxNoteDensityOfFlat | flauta.py:161-168 | `Ab4` reaches the table as `A#4`: maximum 10.374 · scale(4) |
| Flute.SpectralEntryOfASharp4 | flauta.py:50 | the table entry of `A#4` holds 3.865, 8.868 and 10.374 |
| Flute.GetMaxNoteDensityOfMissingSharp | flauta.py:161-168 | `Bb4` becomes `B#4`, which is missing: maximum 0 |
| Flute.ZipLength | flauta.py:174 | `zip` stops at the shortest of the three lists |
| Flute.MaxPossibleOf | flauta.py:171-176 | no contract of its own; specified by `CalculateMaxPossibleDensity`, `MaxPossibleNonNegative` and `Composer.SumWithinMaxPossible` |
| Flute.CalculateMaxPossibleDensity | flauta.py:171-176 | the loop sums the per-note maxima over the zipped lists |
| Flute.MaxPossibleNonNegative | flauta.py:171-176 | with non-negative scale factors the maximum possible density is ≥ 0 |
| DensityCalculations.Massa | density_calculations.py:3-5 | no contract of its own; specified by `DensidadeOfExtremes` |
| DensityCalculations.Volume | density_calculations.py:8-13 | no contract of its own; specified by `VolumeIsSpread`, `VolumeOrderIndependent` and `VolumeExample` |
| DensityCalculations.MeanPairDistance | density_calculations.py:16-24 | no contract of its own; specified by `CalcularDensidadeIntervalar`, `MeanWithinVolume` and `MeanExample` |
| DensityCalculations.Insert | density_calculations.py:12 | inserting into a sorted list keeps it sorted and adds exactly the element |
| DensityCalculations.SortedOf | density_calculations.py:12 | `sorted` returns a sorted permutation |
| DensityCalculations.VolumeIsSpread | density_calculations.py:8-13 | the volume of a non-empty list is max − min ≥ 0 |
| DensityCalculations.ExtremesOfPermutation | density_calculations.py:8-13 | a permutation has the same max and min |
| DensityCalculations.SortedExtremes | density_calculations.py:12-13 | in a sorted list the last element is the max and the first the min |
| DensityCalculations.VolumeOrderIndependent | density_calculations.py:8-13 | lists with the same elements have the same volume |
| DensityCalculations.CalcularDensidadeIntervalar | density_calculations.py:16-24 | the nested loops compute the mean of the pair distances, or 0 for fewer than two notes |
| DensityCalculations.MeanWithinVolume | density_calculations.py:16-24 | the mean pair distance lies between 0 and the volume |
| DensityCalculations.Densidade | density_calculations.py:27-32 | the density is ≥ 0, and is 0 iff the volume is 0 |
| DensityCalculations.DensidadeOfExtremes | density_calculations.py:27-32 | with a positive volume the density is the count over max − min |
| DensityCalculations.VolumeExample | density_calculations.py:8-13 | the volume of no notes is 0 and of [64, 60, 67] is 7 |
| DensityCalculations.MeanExample | density_calculations.py:16-24 | one note has mean pair distance 0; [60, 67] has 7 |
| DensityCalculations.RepeatedNoteExample | density_calculations.py:27-32 | [60, 60] has density 0 |
| DynamicCurve.RepairPppp | Den_alg_Lin_10.py:82 | the result is below ppp and at most the raw value; it equals the raw value iff raw ≤ ppp − 1e-6 |
| DynamicCurve.RepairFfff | Den_alg_Lin_10.py:83 | the result is above fff and at least the raw value; it equals the raw value iff raw ≥ fff + 1e-6 |
| DynamicCurve.Column | Den_alg_Lin_10.py:62-86 | one entry per pitch, each the level's value for that pitch |
| DynamicCurve.ColumnSnoc | Den_alg_Lin_10.py:69-86 | one loop pass appends that pitch's value |
| DynamicCurve.AnalysisOf | Den_alg_Lin_10.py:45-88 | no contract of its own; specified by `StartAnalysis`, `CurveKeys`, `CurveLengths`, `CurveOrder` and `AnalysisErrors` |
| DynamicCurve.StartAnalysis | Den_alg_Lin_10.py:45-88 | the loop builds the curve, or returns the missing-input, ragged-input or index error |
| DynamicCurve.CurveKeys | Den_alg_Lin_10.py:88 | the curve has exactly the nine dynamic levels |
| DynamicCurve.CurveLengths | Den_alg_Lin_10.py:62-88 | pp/mf/ff are the inputs unchanged; the six predicted lists have one entry per pitch (38) |
| DynamicCurve.CurveOrder | Den_alg_Lin_10.py:68-86 | per pitch: the interior levels are the regressor's values unclamped; pppp < ppp and pppp ≤ raw; ffff > fff and ffff ≥ raw |
| DynamicCurve.ExtremesKeptWhenOrdered | Den_alg_Lin_10.py:82-83 | a raw extreme is kept iff it is already 1e-6 outside its neighbour |
| DynamicCurve.AnalysisErrors | Den_alg_Lin_10.py:46-63 | the analysis succeeds iff the three lists have equal length ≥ 38; it is the missing-input error iff a list is empty |
| SpectralMoments.FrequencyToNoteName | advanced_density_analysis.py:14-35 | `Invalid` iff the frequency is ≤ 0 |
| SpectralMoments.FrequencyNameIsMidiName | advanced_density_analysis.py:20-29 | a positive frequency is named like MIDI number `h + 12` |
| SpectralMoments.NanToNum | advanced_density_analysis.py:41 | no contract of its own; specified by `Cleaned` and `AllNaNUndefined` |
| SpectralMoments.Cleaned | advanced_density_analysis.py:41 | NaN densities become 0, the others are kept |
| SpectralMoments.CalculateSpectralMoments | advanced_density_analysis.py:38-77 | the result is: 1. total weight 0 iff the all-undefined result; 2. a ragged-input error iff the weight is non-zero and the lengths differ; 3. otherwise frequency hz(centroid), its note, the skewness, and a deviation `hz(c + spread) − hz(c)` that is present iff the spread is |
| SpectralMoments.WeightedSumBounds | advanced_density_analysis.py:51 | with non-negative weights, `Σ p·d` lies between `lo·Σd` and `hi·Σd` |
| SpectralMoments.CentroidBetweenExtremes | advanced_density_analysis.py:51-52 | with non-negative weights and positive total, the centroid lies between the lowest and the highest pitch |
| SpectralMoments.CentroidWithin | advanced_density_analysis.py:51-52 | the centroid lies within any bounds of the pitches |
| SpectralMoments.SquareSumNonNegative | advanced_density_analysis.py:55 | `Σ d·(p − c)²` ≥ 0 |
| SpectralMoments.SpreadDefined | advanced_density_analysis.py:55-56 | the variance is ≥ 0 and the spread is its square root |
| SpectralMoments.ConstantPitches | advanced_density_analysis.py:51-71 | equal pitches (with `sqrt(0) = 0`) give that pitch as centroid, variance 0, deviation 0 and skewness NaN |
| SpectralMoments.AllNaNUndefined | advanced_density_analysis.py:41-49 | all-NaN densities give the all-undefined result |
| SpectralMoments.SymmetricWeighting | advanced_density_analysis.py:51-66 | [60, 62, 64] weighted [1, 2, 1]: total 4, centroid 62, variance 2, third moment 0, skewness 0 |
| RealSeqs.SumNonNegative | Main.py:98 | a sum of non-negative densities is ≥ 0 |
| RealSeqs.Max | Main.py:103 | `max(pitches)` is a pitch and bounds all pitches |
| RealSeqs.Min | Main.py:103 | `min(pitches)` is a pitch and is below all pitches |
| Composer.MapAll | Main.py:69-72 | a comprehension succeeds iff every element does, elementwise; otherwise it gives the first failure's error |
| Composer.NoteDensityOfEntry | Main.py:87-94 | the result is: an error iff the note is missing (ValueError) or the dynamic is not one of the nine levels (KeyError); the table value for pp/mf/ff; the predictor's value otherwise |
| Composer.MeasuredIgnoresPredictor | Main.py:87-88 | for pp/mf/ff the density is `calcular_densidade`'s, whatever the predictor |
| Composer.DensitiesOfOk | Main.py:86-96 | the density list exists iff every zipped note's density does |
| Composer.DensitiesOfValues | Main.py:86-96 | the list holds each note's density times its scale factor, in order |
| Composer.ErrorPersists | Main.py:86-96 | the first failing note's error ends the loop |
| Composer.DensitiesOfSnoc | Main.py:95-96 | one pass appends the scaled density |
| Composer.InstrumentDensities | Main.py:84-96 | the loop over the zipped lists computes that list or the first error |
| Composer.NoteDensityAtMeasured | Main.py:87-88 | at pp/mf/ff the note's density is the table lookup |
| Composer.NoteWithinMax | Main.py:95 | at a measured dynamic, a scaled density lies between 0 and the note's maximum |
| Composer.SumWithinMaxPossible | flauta.py:171-176 | termwise bounds give `0 ≤ sum ≤ calculate_max_possible_density` |
| Composer.InstrumentWithinMaxPossible | Main.py:98 | at measured dynamics, the instrument density lies between 0 and the maximum possible density |
| Composer.Weighted | Main.py:100 | w = 1 gives the instrument density and w = 0 the interval density |
| Composer.WeightedBetween | Main.py:100 | for w in [0, 1] the weighted density lies between the two densities |
| Composer.Amplitude | Main.py:103 | the amplitude is ≥ 0, bounds every pitch difference and is attained by a pair |
| Composer.Refined | Main.py:104 | amplitude 0 gives the weighted density; otherwise the result times the amplitude is the weighted density |
| Composer.Total | Main.py:113 | max possible 0 gives the refined density; otherwise the result is NaN iff the spread is NaN, and the result times the maximum is refined · spread |
| Composer.AsSamples | Main.py:106 | the instrument densities reach the moments unchanged |
| Composer.ReportOf | Main.py:66-113 | no contract of its own; specified by `AoClicarNoBotaoCalcular`, `ReportGuards` and `ReportStages` |
| Composer.Summarise | Main.py:98-113 | no contract of its own; specified by `SummariseFields` |
| Composer.AoClicarNoBotaoCalcular | Main.py:66-113 | the handler computes exactly `ReportOf` |
| Composer.ReportGuards | Main.py:69-80 | a bad note string is a ValueError; once every note converts, any empty input list returns the missing-input error before any density is computed |
| Composer.ReportMidiError | Main.py:69-106 | once the notes convert, no list is empty and both densities exist, a note that `note_to_midi` rejects makes the handler fail with that error |
| Composer.QuarterFlatSharpEUnpriced | Main.py:69-106 | the chord `E#-4` at `pp` for one flute ends in the KeyError of `note_to_midi` |
| Composer.QuarterFlatSharpEStages | Main.py:69-106 | for `E#-4` at `pp`: the spelling is kept, the interval density and the flute density exist, and `note_to_midi` raises the KeyError |
| Composer.QuarterFlatSharpEConverted | Main.py:69-72 | `converter_para_sustenido` keeps `E#-4` |
| Composer.QuarterFlatSharpEPlaced | densidade_intervalar.py:92-103 | the interval density of `E#-4` exists |
| Composer.QuarterFlatSharpEPriced | flauta.py:39 | the flute table prices `E#-4` at `pp` |
| Composer.ReportStages | Main.py:82-106 | a report exists only when every stage succeeded, and it is the arithmetic of their values |
| Composer.SummariseFields | Main.py:98-113 | report fields: 1. interval and instrument densities as computed; 2. both weight extremes; 3. equal pitches give refined = weighted; 4. max possible 0 gives total = refined; 5. otherwise the total is NaN iff the spread is |

## Left out

- Floating point: every number is a `real`, so rounding, overflow, `inf` and float comparisons are not modelled. NaN appears only where the source produces or tests it: NaN densities, undefined moments, a NaN spread inside the total.
- `decrescimo_gaussiano`, `midi_to_frequency`, `np.sqrt` and the rounded `log2` are parameters (`decay`, `hz`, `sqrt`/`scale`, `semitone`); their formulas are not modelled.
- The Gaussian-process and XGBoost regressors are parameters. Fitting, random restarts and the kernels are not modelled; a fitted regressor is a deterministic function of the three measured values.
- Flute.PredictIntermediateDynamics: models one note's column of the prediction arrays, since the handler calls it with one-element lists.
- All tkinter GUI code, message boxes, the result text box and the `duracoes` list: UI only. The handler returns its report instead of writing it.
- matplotlib plotting, `gaussian_kde` and `extract_and_plot_metrics`: plotting only.
- The Excel loading of `Den_alg_Lin_10.py` is I/O; the pp/mf/ff lists are inputs.
- `importlib` dispatch on the instrument name (Main.py:59-64): the instrument module is always the flute's, as the handler uses `instrumentos[0]` for every note.
- `calcular_densidade_agregado` (densidade_intervalar.py:111-126): it calls an undefined function and cannot run.
- The first definitions of `get_max_note_density` and `calculate_max_possible_density` (flauta.py:151-158): the later definitions rebind those names.
- `print` diagnostics everywhere.
- The `densidade_intervalo` table and `obter_densidade_intervalo` (densidade_intervalar.py:42-53): nothing in the modelled computation uses them.
- `lista_notas` (densidade_intervalar.py:31), `duracoes` and the plot call of the handler: unused by the densities, or plotting.
- String parsing covers ASCII decimal digits only, which is all the form offers.
- NumPy broadcasting: lists of different lengths given to `calculate_spectral_moments` are the ragged-input error. The model does not single out Python's broadcasting of a one-element list.
- Flute.ConverterNotacao: its own contract states only the length; the rewrite itself, position by position, is stated by `Flute.ConverterNotacaoSpec`, to keep the function cheap to unfold.
- DensityCalculations.Volume, DensityCalculations.MeanPairDistance, DensityCalculations.CalcularDensidadeIntervalar, DensityCalculations.Densidade: take integer pitches (`seq<int>`), while `density_calculations.py` takes any numbers; fractional pitches such as the quarter-tone MIDI pitch 61.5 are not covered. Nothing else in the repository calls these functions.
- Flute.MaxNoteDensityBounds: the bound by `calcular_densidade` of the converted note is stated per entry by `Flute.EntryBounds` and, for notes in the table, by `Flute.DensityWithinMax`.
- `spectral_data` is the function `Flute.TableRow` over row indices plus a first-match lookup, not a dictionary. Its keys are distinct, so first-match lookup agrees with the dictionary.
- NoteNames.SemitonsToNoteName: takes a whole number of semitones, so the `int(round(...))` step is not modelled.
- `calcular_massa` is `|notas|` (`DensityCalculations.Massa`). It is stated only through `DensityCalculations.DensidadeOfExtremes`.
