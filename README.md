# lcmspector-backend: extracted ion chromatograms, modelled in Dafny

This project models the processing core of the lcmspector backend. That
core builds extracted ion chromatograms (XICs) from the MS1 spectra of
LC-MS files.

`construct_xics` clones the ion list. For every ion of every compound it
does the following:

- It parses the ion's label as a mass `m`.
- It searches every spectrum's aligned m/z and intensity arrays for peaks
  in `[max(0, m - 3a), m + 3a]`, where `a` is the mass accuracy.
- It records `(start time, intensity)` for each peak found.
- It writes "MS Intensity" into the ion's attribute bag. When at least two
  peaks were found, it also writes "RT".

The loading side does four things, each modelled here:

- It reads the list of input files.
- It splits a decoded mzML file into MS1 and MS2 scans.
- It builds compounds from the ion-list JSON document.
- It runs the pipeline over every file and returns one measurement per
  file.

The model follows the code as written, including where the code departs
from what it evidently intends:

- "MS Intensity" is the sum of the whole 2 x n XIC array, so it includes
  the scan times.
- "RT" is the start time of spectrum 0 or spectrum 1. The index comes from
  comparing the second sample's time with its intensity.
- That index can be past the end of the spectra, which panics.

See "## Findings". The intended behaviour of the corrected version is
this:

- "MS Intensity" is the sum of the matched intensities only.
- "RT" is the start time of a sample with the greatest intensity. The
  comment at src/processing.rs:62 states that this index is the one
  sought.
- Among equal maxima, the earliest is taken. The source does not say
  which is meant: its only rule for ties is `max_by` at
  src/processing.rs:67, which takes the last. So this is the corrected
  version's own choice, and a second change from `max_by`. With the
  last-of-ties rule kept, the acetate example would get "RT" 3.0
  (`Findings.AcetateColumnOnly`).

The corrected behaviour is defined and proved separately in `Findings`.
The batch model keeps the as-written engine, because that is what the
program computes.

Modules and files:

- `common.dfy` (`Common`) holds `Option`, `Result`, and `Outcome`, where
  `Panicked` stands for a Rust panic.
- `measurements.dfy` (`Measurements`) holds spectra, ion attribute bags,
  compounds and measurements.
- `array2.dfy` (`Array2`) holds the `ndarray` operations the code uses and
  the index `max_by` picks.
- `processing.dfy` (`Processing`) models `construct_xics`. It has
  specification functions, four methods with loops (`CollectPeaks`,
  `CollectSpectrumPeaks`, `UpdateCompoundIons`, `ConstructXics`), and the
  lemmas.
- `findings.dfy` (`Findings`) holds the counterexamples and the corrected
  per-ion result.
- `text.dfy` (`Text`) models `str::trim` with Rust's whitespace set.
- `json.dfy` (`Json`) models the accessors of `serde_json::Value` that the
  loader reads.
- `loading.dfy` (`Loading`) models `read_file_paths`, `load_ms_scans`,
  `load_ion_lists` and `process_files_in_parallel`.

Masses, intensities and times are `real`. Parsing an ion label as `f64` is
a parameter `parseMass: string -> Option<real>`. Opening and decoding a file
is a parameter `decode: string -> Option<seq<Spectrum>>`, where `None` means
the file could not be opened.

The ions of a compound live in a hash map. `UpdateCompoundIons`, which
`ConstructXics` calls for each compound, therefore takes them in an
arbitrary order, chosen by `:|`. It is proved equal to `Xics`,
which is defined without any order. So the result does not depend on the
order of ion iteration, and the same inputs always give the same result.

## Model

| member | source | states |
|---|---|---|
| `Processing.ConstructXics` | src/processing.rs:7-80 | returns exactly `Xics`: either a panic, when some ion panics, or one updated compound per input compound. This holds whatever order the ions of a compound are visited in. |
| `Processing.Xics` | src/processing.rs:7-80 | the order-free result of `construct_xics`: when it completes there is one compound per input compound. Its other properties are `Processing.XicsPanicked` and `Processing.XicsShape`. |
| `Processing.UpdateCompoundIons` | src/processing.rs:14-77 | updating a compound's ions in place, in any order, panics exactly when some ion panics. Otherwise every ion's bag becomes that ion's own result. |
| `Processing.ExtractIon` | src/processing.rs:15-76 | one ion's work (parse, window, scan, write) yields exactly `IonResult`, with `None` for a panic. |
| `Processing.IonResult` | src/processing.rs:15-76 | one ion's new bag, or `None` for a panic: a label that does not parse always panics, and a completed ion always has "MS Intensity". Its full contents are in `Processing.IonResultAttributes`. |
| `Processing.MassRange` | src/processing.rs:22-29 | the low end is never negative, and `mz` is in the window iff `mz >= 0` and `mz` lies within three mass accuracies of the mass. |
| `Processing.CollectPeaks` | src/processing.rs:31-43 | the collected `scan_times` and `intensities` vectors are the times and intensities of `Matches`, in order. The call panics exactly when some spectrum has arrays but lacks its m/z or intensity array. |
| `Processing.CollectSpectrumPeaks` | src/processing.rs:33-41 | the inner loop over one spectrum's zipped arrays appends exactly the in-window peaks' start times and intensities, in array order, to what was collected before. |
| `Processing.UpdateIonData` | src/processing.rs:45-76 | building the XIC array and inserting "MS Intensity"/"RT" yields exactly `XicUpdate`. |
| `Processing.XicUpdate` | src/processing.rs:45-76 | a completed update always has "MS Intensity", which is None iff no peak matched. A panic needs at least two samples: only the RT lookup can fail. |
| `Processing.MatchesIff` | src/processing.rs:22-43 | a sample is recorded iff it is the (start time, intensity) of peak `j` of some spectrum. That spectrum must have both arrays, `j` must be below both array lengths (zip truncation), and `lo <= mz <= hi`. Nothing outside the window, and nothing from a spectrum without arrays, is recorded. |
| `Processing.MatchesAppend` | src/processing.rs:31-40 | samples follow spectrum order: those of earlier spectra come first. |
| `Processing.MatchedTotalPermutation` | src/processing.rs:31-56 | any reordering of the spectra gives the same number of samples, the same XIC array sum and the same sum of intensities. |
| `Processing.MatchedTotalAppend` | src/processing.rs:31-56 | for the spectra of two files one after the other, the sample count, the XIC array sum and the sum of intensities are those of each part added. |
| `Processing.IonIntensityPermutation` | src/processing.rs:31-56 | as written, reordering the spectra leaves an ion's "MS Intensity" unchanged whenever both orders complete. |
| `Processing.XicUpdateOutcome` | src/processing.rs:45-76 | zero samples: "MS Intensity" = None and nothing else changes. One sample: "MS Intensity" = its time + intensity, and no "RT". Two or more: "MS Intensity" = Σ times + Σ intensities, and "RT" = `data[k].start_time` with `k = 0` if `times[1] > intensities[1]` else `1`. When `k` is past the end of `data`, the call panics. |
| `Processing.IonResultPanics` | src/processing.rs:19-71 | an ion panics iff its label does not parse, some spectrum has peak data but lacks its m/z or intensity array, or the RT index is past the end of `data`. The last case is only possible as index 1 with a single spectrum. |
| `Processing.IonResultAttributes` | src/processing.rs:50-76 | the ion's bag only gains or overwrites "MS Intensity" (always) and "RT" (from two samples on), and every other key keeps its value. "MS Intensity" is None iff nothing matched, and is otherwise Σ times + Σ intensities. |
| `Processing.IonResultWithoutSpectra` | src/processing.rs:50-53 | with no spectra, an ion whose label parses gets "MS Intensity" = None and nothing else. |
| `Processing.XicsPanicked` | src/processing.rs:12-21 | the whole call panics iff some ion of some compound panics. |
| `Processing.XicsShape` | src/processing.rs:12-79 | the output has the input's length and compound order. Names, info, calibration curve, MS2 list and ion labels are unchanged. Each ion's bag is its own result, which depends only on its label, its old bag, the spectra and the mass accuracy. |
| `Array2.MaxByIndex` | src/processing.rs:63-68 | `max_by` over an enumeration returns None only for an empty sequence. Otherwise it returns an index of a maximum, and every later element is strictly smaller, so ties go to the last element. |
| `Array2.Column` | src/processing.rs:64 | `column(j)` of a row-major array holds element `i * cols + j` of row `i`. |
| `Array2.FromShapeVec` | src/processing.rs:46-48 | `from_shape_vec` succeeds iff the vector has `rows * cols` elements, which always holds here, so the `expect` never fires. |
| `Array2.SeqSumConcat` | src/processing.rs:56 | the sum of the concatenated rows is the sum of the times plus the sum of the intensities. |
| `Findings.AcetateSamples` | src/processing.rs:22-43 | in the acetate scenario, the window around 59.0139 at accuracy 0.0001 records one sample per spectrum. |
| `Findings.AcetateAsWritten` | src/processing.rs:46-76 | as written, the acetate scenario gives "MS Intensity" 156 and "RT" 2.0, and 2.0 is not the time of the earliest maximum. |
| `Findings.IntendedIonResult` | src/processing.rs:45-76 | corrected: "MS Intensity" is None with no sample and Σ intensities otherwise. Other keys are kept. "RT" is written from two samples on. |
| `Findings.FirstMaxIndex` | src/processing.rs:63-68 | corrected selection: an index of a maximum, with every earlier element strictly smaller, so ties go to the first element. |
| `Findings.IntendedRtIsPeakTime` | src/processing.rs:62-76 | the corrected "RT" is the start time of the earliest sample of greatest intensity. |
| `Findings.AcetateIntended` | src/processing.rs:45-76 | corrected, the acetate scenario gives "MS Intensity" 150 and "RT" 1.0. |
| `Findings.AcetateColumnOnly` | src/processing.rs:63-71 | reading the intensity row but keeping `max_by`'s last-of-ties rule picks the third acetate spectrum, RT 3.0, so the earliest-maximum correction is a change of its own. |
| `Findings.TwoPeakSamples` | src/processing.rs:31-43 | one spectrum with two in-window peaks records two samples, both at its start time. |
| `Findings.SingleSpectrumPanicsAsWritten` | src/processing.rs:63-71 | as written, two matches in a file with one MS1 spectrum make the code index `data[1]`, which panics. |
| `Findings.SingleSpectrumIntended` | src/processing.rs:45-76 | corrected, the same input gives "MS Intensity" 30 and "RT" 1.0. |
| `Findings.IntendedIntensityPermutation` | src/processing.rs:31-56 | the corrected "MS Intensity" also does not depend on the order of the spectra. |
| `Text.TrimStartSpec` | src/loading.rs:21 | `trim_start` keeps a suffix of the line, drops only whitespace, and leaves no whitespace in front. |
| `Text.TrimEndSpec` | src/loading.rs:21 | `trim_end` keeps a prefix of the line, drops only whitespace, and leaves no whitespace at the end. |
| `Text.Trimmed` | src/loading.rs:21 | a trimmed line is no longer than the line and has no whitespace at either end. |
| `Text.TrimEmptyIff` | src/loading.rs:21-22 | a line trims to the empty string iff it is whitespace only. |
| `Loading.ReadFilePaths` | src/loading.rs:15-24 | a file that cannot be opened gives that error. Otherwise the result is an error iff some line fails to read. |
| `Loading.CollectPathsFirstError` | src/loading.rs:19-23 | the result is an error iff some line fails to read, and the error is that of the first failing line. |
| `Loading.CollectPathsMembers` | src/loading.rs:19-23 | a path is returned iff some line was read and trims to that path, and the path is not empty. |
| `Loading.CollectPathsTrimmed` | src/loading.rs:19-23 | no returned path is empty or has whitespace at either end. |
| `Loading.CollectPathsAppend` | src/loading.rs:19-23 | relative order of lines is kept. |
| `Loading.LoadMsScans` | src/loading.rs:26-54 | a file that cannot be opened gives two empty vectors, not an error. Otherwise the first output is exactly the level-1 scans and the second exactly the level-2 scans, in decoder order. |
| `Loading.ScansOfLevelMembers` | src/loading.rs:37-43 | a scan is kept iff it is one of the decoded scans and has the requested level. |
| `Loading.ScansOfLevelAppend` | src/loading.rs:37-43 | each output keeps decoder order. |
| `Loading.LevelsPartition` | src/loading.rs:37-43 | the two outputs together hold at most every scan, and hold all of them iff every scan has level 1 or 2. Other levels are dropped. |
| `Loading.LoadIonLists` | src/loading.rs:92-129 | an unknown list name gives no compounds. Otherwise there is one compound per member of the list when the list is an object, and none when it is not. |
| `Loading.FilterMapMembers` | src/loading.rs:108 | `filter_map` keeps exactly the values the accessor produces from some item. |
| `Loading.FilterMapAppend` | src/loading.rs:106-118 | skipped items do not disturb the order of the kept ones. |
| `Json.Lookup` | src/loading.rs:100 | a key is found iff some member has it, and the value returned is that member's value. |
| `Loading.LoadIonListsEntries` | src/loading.rs:100-127 | an unknown list name, or a list that is not an object, gives no compounds. Otherwise there is one compound per entry, in entry order. |
| `Loading.EntryFields` | src/loading.rs:105-118 | an entry's ions are exactly the numbers in its "ions" array, and its info exactly the strings in its "info" array. A missing or non-array field gives none, and other items are skipped. |
| `Loading.ProcessFile` | src/loading.rs:71-84 | a completed file's measurement carries the batch's mass accuracy and one compound per ion-list compound, and an unopenable file gives no scans. |
| `Loading.MapFiles` | src/loading.rs:69-85 | a completed map gives one measurement per path. |
| `Loading.ProcessFilesInParallel` | src/loading.rs:58-90 | a completed batch gives one measurement per path, each with the batch's mass accuracy. |
| `Loading.MapFilesOnePerPath` | src/loading.rs:69-85 | exactly one measurement per path, in input order, unless some file's processing panics. |
| `Loading.ProcessFilesMeasurements` | src/loading.rs:66-85 | each measurement holds that file's MS1/MS2 scans, the `construct_xics` result over those MS1 scans with the one shared ion list, and the batch's mass accuracy. |
| `Loading.MissingFileMeasurement` | src/loading.rs:29-32 | a file that cannot be opened yields a measurement with no scans in which every ion's "MS Intensity" is None, unless an ion label fails to parse. |

## Left out

- Console output and timing (`println!`, `Instant`) are not modelled. They do not affect results.
- Floating point is not modelled: f64 rounding in the sum, the f32-to-f64 intensity cast, `mass_accuracy as f32`, and the NaN panic of `partial_cmp().unwrap()`. All numbers are `real`, and reals are totally ordered.
- `str::parse::<f64>` is the parameter `parseMass`. The decimal grammar is not modelled.
- mzML decoding, `File::open` and `BufReader` are not modelled. A file is what its decoder yields, or `None` when it cannot be opened. Line reading is a sequence of per-line results.
- Parsing `ion_lists.json` is not modelled. `load_ion_lists` receives the parsed document, so the `expect` panics on a missing or malformed file (src/loading.rs:94, 97) are not modelled.
- A JSON object is the list of its members in the order its map iterates over them. Keys are assumed unique, as in a serde_json `Map`; the model does not enforce it. With a repeated key `Lookup` would take the first member, while `LoadIonLists` would build one compound per copy.
- Rayon parallelism and `Arc` sharing are modelled as a sequential, order-preserving map, which is what the indexed `collect` returns. A panic in any worker makes the whole call `Panicked`.
- `Compound::from_ion_list_entry` is not part of this model. It is the parameter `compoundFromEntry`.
- `MSMeasurement::from_data` and `Compound` are not part of this model; the struct at src/measurements.rs:3-6 shows only `ms1_scans` and `ms2_scans`. The four-field `MSMeasurement` (scans, compounds, mass accuracy) is an assumption about what `from_data` keeps of the four values it is given, and `Loading.ProcessFilesMeasurements` rests on that assumption.
- The element types of `calibration_curve` and `ms2` are not visible in the source. They are placeholders carried through unchanged.
- A panic has no message in the model. Which ion panics first depends on hash-map order.
- src/main.rs is not part of this model. It only prints a version.
- The test at src/processing.rs:82-152 is not part of this model. It needs data files. Its shape checks are covered by `Processing.XicsShape`.
- Chunked scheduling of large batches does not exist in this code, so it is not modelled.
- Processing.XicsShape: states the output for a completed call only. A panicking call has no output to describe.

## Findings

| source | as written | input that shows it | evidently intended | confidence | as-written member | corrected member |
|---|---|---|---|---|---|---|
| src/processing.rs:46-56 | "MS Intensity" is the sum of the whole 2 x n array, so the matched scan times are added in | three MS1 spectra at 1.0, 2.0 and 3.0 s, each with one peak of intensity 50 at m/z 59.0139; ion "59.0139", accuracy 0.0001: "MS Intensity" 156 | 150, the sum of the matched intensities | not executed | `Findings.AcetateAsWritten` | `Findings.AcetateIntended` |
| src/processing.rs:63-71 | "RT" is `data[k].start_time` with `k` the `max_by` index over `column(1)`, the second sample's (time, intensity), so it is always spectrum 0 or 1 | the same input: "RT" 2.0 | 1.0, the time of the earliest sample of greatest intensity. Taking the earliest of equal maxima is a second change from `max_by`, which takes the last: fixing only the column gives 3.0 (`Findings.AcetateColumnOnly`) | not executed | `Findings.AcetateAsWritten` | `Findings.IntendedRtIsPeakTime` |
| src/processing.rs:71 | `data[1]` is read even when there is one spectrum, which panics | one MS1 spectrum at 1.0 s with peaks of intensity 10 and 20 at m/z 100; ion "100", accuracy 0: panic | "MS Intensity" 30, "RT" 1.0 | not executed | `Findings.SingleSpectrumPanicsAsWritten` | `Findings.SingleSpectrumIntended` |
