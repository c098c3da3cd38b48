# FirDesigner core, modelled in Dafny

FirDesigner is a desktop application that designs FIR filters from loudspeaker
measurements. A measurement is a TRF file: a list of (frequency, magnitude,
phase[, coherence]) points. The TRF file comes either as text or as a binary
file that starts with a "JACKREF" header. This project models and proves the
application's core:

- `TrfParser` reads the renderer's TRF files (`src/utils/trfParser.js`):
  - It decides between binary and text with the JACKREF token and the
    share of non-printable bytes.
  - It finds the binary data section, first from the first numeric text line
    and then by probing fixed offsets. It then reads 16-byte records.
  - It parses the text format, where a header line switches coherence on.
  - Both readers apply the 22 kHz cutoff while they read.
- `TrfAnalysis` covers the rest of that file:
  - validation;
  - the min/max/average summaries of `analyzeTRFData`;
  - the warnings, recommendations and overall rating of `assessDataQuality`;
  - the separate 22 kHz cutoff;
  - the sample-rate suggestion.
- `ElectronTrfParser` is the desktop process's simpler text parser and
  validator (`electron/trfParser.js`).
- `FirProcessor` models `electron/firProcessor.js`:
  - the option defaults and merge;
  - the optional frequency-range filter, which keeps the points in range
    and sorts them by frequency;
  - the windowed-sinc design (cutoff 0.1, Hamming window);
  - the 1024-point frequency response;
  - the five export formats.

  The designed coefficients depend only on the number of taps and not on the
  measurement. The model keeps that behaviour.
- `FileManager` models `processTRFFile`, `detectSampleRate` and
  `validateTRFFile`. File reads and `stat` become parameters.
- `FilterStore.Store` is the renderer's store. It is a class whose fields are
  the store's state, and each action is a method that states the whole new
  state.
- `EventHub.Hub` is the renderer's event hub. It is a class over a map from
  event names to listener lists. `Emit` follows `forEach` over the live list,
  so it skips a listener, as written (see Findings).

JavaScript numbers are modelled as exact reals. In the processor,
`Number = Option<real>` stands for a number that may be NaN or an infinity
(a NaN window weight, the `log10(0)` of a zero magnitude), and `None`
absorbs through the arithmetic. The parsers' `parseFloat` gives `None` for
NaN and cannot give an infinity (see Left out). The following are parameters of the model
rather than definitions:

- `parseFloat` and `Number()` (`JsNumbers`);
- `readFloatLE` (`readF32`);
- `sin`, `cos`, `sqrt`, `atan2` and `log10` (`Numerics`);
- `toFixed` (`Formatter`).

The only facts the proofs use about them are the ones a lemma states as its
`requires`, such as an odd `sin` or a `toFixed` whose output contains no
newline.

## Model

| member | source | states |
|---|---|---|
| TrfParser.SampleLength | src/utils/trfParser.js:19 | the sample is the first 10000 bytes, or the whole buffer when shorter |
| TrfParser.NullBytesAreNonPrintable | src/utils/trfParser.js:19-22 | every null byte is also counted as non-printable |
| TrfParser.RatioAboveHalf | src/utils/trfParser.js:24-28 | a ratio above 0.5 is exactly twice the count exceeding the sample size |
| TrfParser.IsBinaryTRF | src/utils/trfParser.js:10-31 | binary exactly when the text contains JACKREF and more than half of the sampled bytes lie outside 32..126 |
| TrfParser.LooksBinary | src/utils/trfParser.js:10-31 | the binary test, defined: the JACKREF token and strictly more than half of the sampled bytes non-printable; `IsBinaryTRF` is proved to return it |
| TrfParser.DataRowStartsWithDigit | src/utils/trfParser.js:90 | a line matching the data-row pattern starts with a digit |
| TrfParser.FirstDataRow | src/utils/trfParser.js:86-95 | the index of the first trimmed line that matches the data-row pattern, with no earlier such line; None when there is none |
| TrfParser.FindDataRow | src/utils/trfParser.js:86-95 | the loop returns -1 exactly when no line matches, and otherwise the first matching index |
| TrfParser.ByteOffset | src/utils/trfParser.js:96-103 | the offset is the sum of the lengths of the earlier lines plus one separator each |
| TrfParser.TextOffsetLocatesDataRow | src/utils/trfParser.js:96-103 | for text without carriage returns, the computed offset is exactly where the first data row starts in the text (CRLF text: `CrlfOffsetFallsShort`) |
| TrfParser.TextOffsetOfRow | src/utils/trfParser.js:97-103 | when the first data row is line k > 0, the offset is the counted start of line k |
| Text.LineStartShortfall | src/utils/trfParser.js:82-103 | the counted start of line k plus the CRLF line ends above it is where line k begins in the line-feed split |
| Text.LineAtPieceStart | src/utils/trfParser.js:82 | line k of the `/\r?\n/` split occurs in the text where piece k of the line-feed split begins |
| Text.CrBreakCounted | src/utils/trfParser.js:82 | a line ending in a carriage return before line k makes the CRLF count positive |
| TrfParser.CrlfOffsetFallsShort | src/utils/trfParser.js:100 | the offset is the true start of the data row minus the number of CRLF line ends above it, and strictly before the row when any header line ends in CRLF |
| TrfParser.LineAwareDataStart | src/utils/trfParser.js:96-103 | the corrected offset, counting each line with its own line end |
| TrfParser.LineAwareOffsetLocatesDataRow | src/utils/trfParser.js:96-103 | for any line ends, the corrected offset is where the first data row begins |
| TrfParser.LineAwareAgreesWithoutCarriageReturns | src/utils/trfParser.js:96-103 | without carriage returns the corrected offset is the offset as written |
| TrfParser.FirstAccepted | src/utils/trfParser.js:107-127 | the first candidate offset whose three floats pass the range checks; every earlier candidate fails them |
| TrfParser.ProbeCandidates | src/utils/trfParser.js:105-129 | the probing loop returns the candidate that the specification function picks, or -1 |
| TrfParser.ProbeFindsFirstAccepted | src/utils/trfParser.js:105-129 | -1 exactly when no candidate (435057, 1000, 2000, 5000, 10000) is accepted; otherwise the first accepted one |
| TrfParser.FindBinaryDataStart | src/utils/trfParser.js:79-130 | the text boundary when the first data row has index above 0, else the probe result |
| TrfParser.RecordsInRange | src/utils/trfParser.js:46-60 | every record read has a frequency in 0..22000, a magnitude in (-200, 200) and a phase in (-180, 180); at most one point per 16 bytes |
| TrfParser.FinalFullRecordSkipped | src/utils/trfParser.js:46 | a record that ends exactly at the end of the buffer is never read, because the loop test is `i < end - 16` |
| TrfParser.ReadRecords | src/utils/trfParser.js:43-72 | the record loop yields exactly the records the specification function reads from the data start |
| TrfParser.ParseBinaryTRF | src/utils/trfParser.js:33-77 | the error when no data section is found, and otherwise the records read from it |
| TrfParser.HeaderMarkerIsFreq | src/utils/trfParser.js:152-153 | a line counts as the header exactly when its lower-case form contains "freq" |
| TrfParser.IsNumericLine | src/utils/trfParser.js:199-202 | the first field is not NaN under `parseFloat` and is finite under `Number()` |
| TrfParser.HeaderIndex | src/utils/trfParser.js:152-161 | the index of the first considered line that mentions a frequency; no earlier line does |
| TrfParser.StartIndex | src/utils/trfParser.js:152-166 | the first line that starts the data, either the header or the first numeric line; no earlier line does |
| TrfParser.RowPoint | src/utils/trfParser.js:169-192 | a parsed row has at least three fields and a frequency in 0..22000; its coherence is present only when the header declared it and a fourth field lies in 0..1 |
| TrfParser.LinePoints | src/utils/trfParser.js:169-192 | each line yields at most one point; that point passes the range checks and has coherence only when an earlier header declared it |
| TrfParser.TextPointsInRange | src/utils/trfParser.js:132-197 | a text parse gives at most one point per line, each within the text ranges |
| TrfParser.CoherenceNeedsDeclaringHeader | src/utils/trfParser.js:159 | a point with coherence implies a header exists and its lower-case form contains "coherence" |
| TrfParser.ReadTextLine | src/utils/trfParser.js:143-193 | one iteration of the text loop performs the line step that the specification describes |
| TrfParser.ReadRow | src/utils/trfParser.js:169-192 | reading a data row gives exactly the row's specified points |
| TrfParser.ParseTextTRF | src/utils/trfParser.js:132-197 | the loop gives exactly the specified points of the split lines |
| TrfParser.TextPoints | src/utils/trfParser.js:132-197 | the text parse, defined line by line; `ParseTextTRF` is proved to return it and `TextPointsInRange` bounds it |
| TrfParser.ParseTRF | src/utils/trfParser.js:1-8 | the binary reader when the buffer looks binary, else the text parser |
| TrfAnalysis.ValidateTRFData | src/utils/trfParser.js:204-228 | "no points" exactly for an empty list; "frequency out of range" exactly when some frequency leaves 0..22000; Ok exactly when every frequency and magnitude is in range |
| TrfAnalysis.BinaryPointsValidate | src/utils/trfParser.js:204-228 | any non-empty binary parse passes validation |
| TrfAnalysis.TextPointsPassFrequencyCheck | src/utils/trfParser.js:213-218 | a text parse never fails the frequency check |
| TrfAnalysis.AnalyzeTRFData | src/utils/trfParser.js:230-265 | no analysis exactly for an empty list |
| TrfAnalysis.AnalysisSummarises | src/utils/trfParser.js:230-265 | the point count; a frequency range that bounds every point and is attained, with its span; magnitude and phase min/average/max; coherence stats exactly when some point has coherence, with their count and min <= average <= max |
| TrfAnalysis.CoherenceStatsInUnitRange | src/utils/trfParser.js:251-262 | for coherences in 0..1, the statistics also lie in 0..1 |
| TrfAnalysis.AssessDataQuality | src/utils/trfParser.js:267-344 | an error exactly for the `null` analysis of no points, on which the source throws at the coherence check (line 288); otherwise no issues, the specified warnings and recommendations, and the overall rating set by the warning count |
| TrfAnalysis.CheckMagnitudes | src/utils/trfParser.js:276-285 | a low-magnitude warning exactly when some magnitude is below -100, and likewise a high-magnitude warning above 20, with the counts |
| TrfAnalysis.CheckCoherence | src/utils/trfParser.js:288-296 | the low- or moderate-coherence warning and the averaging recommendation, by the average coherence |
| TrfAnalysis.CheckFrequencyBands | src/utils/trfParser.js:299-316 | a limited-band warning when fewer than a tenth of the points lie in 20..200 Hz, and likewise for 2..20 kHz |
| TrfAnalysis.CheckCutoff | src/utils/trfParser.js:319-323 | the cut-at-22 kHz warning and its recommendation when the highest frequency is exactly 22000 |
| TrfAnalysis.OverallRating | src/utils/trfParser.js:326-332 | good for at most one warning, fair for two or three, and poor for more |
| TrfAnalysis.AddGeneralRecommendations | src/utils/trfParser.js:335-341 | more points when there are fewer than 100; a wider range when the span is below 1000 Hz |
| TrfAnalysis.WarningTexts | src/utils/trfParser.js:276-323 | the `warnings` array: one message per warning, in order |
| TrfAnalysis.RecommendationTexts | src/utils/trfParser.js:288-341 | the `recommendations` array: one message per recommendation, in order |
| TrfAnalysis.CutMessageIsUnique | src/utils/trfParser.js:276-323 | a warning has the hearing-limit message exactly when it is the hearing-limit warning |
| TrfAnalysis.ExtendMessageIsUnique | src/utils/trfParser.js:288-341 | a recommendation has the extend-beyond-22 kHz message exactly when it is that recommendation |
| TrfAnalysis.CountLedIsNotCut | src/utils/trfParser.js:280-284 | a message that starts with a count is never the hearing-limit message |
| TrfAnalysis.CutTextsFollowCut | src/utils/trfParser.js:319-323 | the message arrays hold the hearing-limit and extend messages exactly when the warnings and recommendations hold them |
| TrfAnalysis.CutMessagesPaired | src/utils/trfParser.js:319-323 | the assessment pushes the hearing-limit warning text exactly when it pushes the extend-beyond-22 kHz recommendation text |
| TrfAnalysis.MagnitudeWarningRules | src/utils/trfParser.js:276-285 | both directions of each magnitude warning, with the exact count it carries |
| TrfAnalysis.WarningRules | src/utils/trfParser.js:288-323 | both directions of the coherence, band and cutoff warnings |
| TrfAnalysis.RecommendationRules | src/utils/trfParser.js:288-341 | both directions of each recommendation |
| TrfAnalysis.AtMostSixWarnings | src/utils/trfParser.js:276-323 | at most six warnings, and never both coherence warnings |
| TrfAnalysis.RatingMonotone | src/utils/trfParser.js:326-332 | more warnings never improve the rating |
| TrfAnalysis.CutReportedAtLimit | src/utils/trfParser.js:319-323 | within the cutoff, a point at exactly 22000 Hz produces the cut warning |
| TrfAnalysis.Apply22kHzCutoff | src/utils/trfParser.js:347-354 | the cutoff, defined as the points with frequency in 0..22000; its lemmas follow |
| TrfAnalysis.CutoffKeepsInRangePoints | src/utils/trfParser.js:347-354 | the cutoff keeps exactly the points in 0..22000, with their multiplicities |
| TrfAnalysis.CutoffIdempotent | src/utils/trfParser.js:347-354 | applying the cutoff twice is applying it once |
| TrfAnalysis.CutoffKeepsParsedPoints | src/utils/trfParser.js:347-354 | the cutoff changes no parsed list, binary or text |
| TrfAnalysis.DetectOptimalSampleRate | src/utils/trfParser.js:357-370 | the suggestion, defined: 48000 for no points or a highest frequency up to 22000, else the ceiling of 2.2 times it; `SampleRateCoversNyquist` bounds it |
| TrfAnalysis.SampleRateCoversNyquist | src/utils/trfParser.js:357-370 | the suggestion is at least 48000 and at least twice every frequency; above 22 kHz, at least 2.2 times every frequency |
| Common.ValidatePoints | src/utils/trfParser.js:204-228 | the shared validation: an error for an empty list, then for a frequency outside 0..limit, then for a magnitude outside -200..200, each exactly when its condition holds; Ok otherwise |
| ElectronTrfParser.IsNumericLine | electron/trfParser.js:44-47 | the first field is not NaN under `parseFloat` and is finite under `Number()` |
| ElectronTrfParser.HeaderIndex | electron/trfParser.js:15-19 | the first line that mentions a frequency; no earlier line does |
| ElectronTrfParser.StartIndex | electron/trfParser.js:15-24 | the first line that starts the data; no earlier line does |
| ElectronTrfParser.RowPoint | electron/trfParser.js:27-37 | a point exactly when the first three fields parse, with those values and no coherence |
| ElectronTrfParser.PointsWithoutCoherence | electron/trfParser.js:1-42 | at most one point per line and never a coherence |
| ElectronTrfParser.SilentLines | electron/trfParser.js:14-37 | blank lines, the header line and lines before the data start yield nothing |
| ElectronTrfParser.FirstNumericLineIsRead | electron/trfParser.js:22-37 | the first numeric non-header line starts the data and is read as a row |
| ElectronTrfParser.HeaderStartsData | electron/trfParser.js:15-24 | once a header is found, the data has started no later than it |
| ElectronTrfParser.ReadLine | electron/trfParser.js:14-37 | one loop iteration performs the specified line step |
| ElectronTrfParser.ParseTRF | electron/trfParser.js:1-42 | the loop gives exactly the specified points of the split lines |
| ElectronTrfParser.Points | electron/trfParser.js:1-42 | the parse, defined line by line; `ParseTRF` is proved to return it and `PointsWithoutCoherence` bounds it |
| ElectronTrfParser.ValidateTRFData | electron/trfParser.js:49-73 | as the renderer's validation, but with the 1e9 Hz frequency limit |
| FirProcessor.MergeRules | electron/firProcessor.js:10-24 | every given key overrides its default and every missing key takes it; no options give the defaults |
| FirProcessor.MergeOptions | electron/firProcessor.js:10-24 | `{ ...defaults, ...options }`, defined key by key; `MergeRules` states its laws |
| FirProcessor.RangeFilterOffByDefault | electron/firProcessor.js:16-29 | the default frequency range is disabled |
| FirProcessor.SortByFrequency | electron/firProcessor.js:78 | the array ends sorted by frequency and is a permutation of the input |
| FirProcessor.InsertAt | electron/firProcessor.js:78 | one insertion step extends the sorted prefix and keeps the multiset |
| FirProcessor.ApplyFrequencyRangeFilter | electron/firProcessor.js:65-81 | an error exactly when no point is in range, naming the range; otherwise non-empty, sorted, and exactly the in-range points |
| FirProcessor.NoneInRange | electron/firProcessor.js:69-75 | the filtered list is empty exactly when no point is in range |
| FirProcessor.RangeFilterKeepsInRangePoints | electron/firProcessor.js:69-78 | every kept point is in range, and every in-range point is kept as often as it occurs |
| FirProcessor.Taps | electron/firProcessor.js:102-109 | one sinc tap per index, centred on `floor(N/2)` |
| FirProcessor.Windowed | electron/firProcessor.js:117-123 | each coefficient is multiplied by its Hamming weight |
| FirProcessor.ApplyWindow | electron/firProcessor.js:117-123 | the array becomes the windowed coefficients |
| FirProcessor.DesignFIRFilter | electron/firProcessor.js:92-115 | the coefficients are the windowed taps |
| FirProcessor.DesignShape | electron/firProcessor.js:92-123 | N coefficients; the centre is 0.2 times its window weight; all finite for N >= 2; a single NaN for N = 1 |
| FirProcessor.TapsSymmetric | electron/firProcessor.js:102-109 | for an odd number of taps and an odd sine, the taps are symmetric about the centre |
| FirProcessor.WindowSymmetric | electron/firProcessor.js:117-123 | for an even, 2-pi-periodic cosine, index i and its mirror N-1-i get the same Hamming weight |
| FirProcessor.WindowPositive | electron/firProcessor.js:117-123 | with two taps or more and a cosine in -1..1, every weight is at least 0.08 |
| FirProcessor.DesignedSymmetric | electron/firProcessor.js:92-123 | for an odd number of taps, the windowed design is symmetric about its centre |
| FirProcessor.MiddlePair | electron/firProcessor.js:100-109 | for an even number of taps, the two middle coefficients are the tap at -1 and the centre tap 0.2, each times its weight |
| FirProcessor.NeighbourTapBelowCentre | electron/firProcessor.js:102-109 | with sin(0.2 pi) below 0.2 pi, the tap next to the centre is below 0.2 |
| FirProcessor.MiddlePairDiffers | electron/firProcessor.js:100-123 | with equal positive weights and a smaller neighbour tap, the two middle coefficients differ |
| FirProcessor.EvenDesignAsymmetric | electron/firProcessor.js:100 | for an even number of taps, the coefficients at c-1 and at its mirror N-1-(c-1) differ, with c = floor(N/2): the design is not symmetric |
| FirProcessor.CenteredTaps | electron/firProcessor.js:100-109 | the corrected taps: entry i is the ideal tap 2i - (N-1) half taps from the middle (N-1)/2 |
| FirProcessor.HalfStepOfWhole | electron/firProcessor.js:104-107 | a whole number n of taps from the centre, the half-step tap formula gives the tap as written |
| FirProcessor.HalfStepTapEven | electron/firProcessor.js:104-107 | the centred ideal tap is the same k half taps either side of the middle |
| FirProcessor.CenteredPair | electron/firProcessor.js:100-123 | entry i of the centred design and its mirror hold the taps k and -k half taps from the middle, each times its Hamming weight |
| FirProcessor.CenteredDesignAgreesWhenOdd | electron/firProcessor.js:100-123 | for an odd number of taps, the centred design is the design as written |
| FirProcessor.CenteredDesignSymmetric | electron/firProcessor.js:100-123 | the centred design is symmetric for every number of taps, even ones included |
| FirProcessor.Transform | electron/firProcessor.js:138-142 | the inner loop gives the real and imaginary sums |
| FirProcessor.CalculateFilterResponse | electron/firProcessor.js:125-155 | 1024 points, each the magnitude in dB and the phase in degrees at its grid frequency |
| FirProcessor.ResponseOf | electron/firProcessor.js:131-151 | one response point, as specified |
| FirProcessor.ResponseGrid | electron/firProcessor.js:130-131 | the grid starts at 0, rises strictly in steps of fs/2/1024 and stays below the Nyquist frequency |
| FirProcessor.DesignFilter | electron/firProcessor.js:9-63 | an error exactly when the range filter is on and no point is in range; otherwise the designed coefficients, their response at the merged rate, and the metadata with its defaults and point counts |
| FirProcessor.Sanitize | electron/firProcessor.js:160-163 | each non-finite coefficient becomes 0 and the others are kept |
| FirProcessor.UnknownFormatIsText | electron/firProcessor.js:196-198 | an unknown format exports as text |
| FirProcessor.ExportContent | electron/firProcessor.js:157-198 | the exported text per format, defined; the export lemmas state its shape |
| FirProcessor.ExportCoefficients | electron/firProcessor.js:157 | the export with the rate defaulting to 48000 |
| FirProcessor.DefaultRateHeader | electron/firProcessor.js:157-183 | without a rate, the high-res header always states 48 kHz |
| FirProcessor.TextExportLines | electron/firProcessor.js:168-170 | text export is one `toFixed(6)` line per coefficient, and "" when there are none |
| FirProcessor.CsvExportFields | electron/firProcessor.js:171-173 | csv export is one `toFixed(6)` field per coefficient |
| FirProcessor.MatlabIsPythonWithSemicolon | electron/firProcessor.js:174-179 | the matlab file is the python file with `%` for `#` and a trailing semicolon |
| FirProcessor.HighResLines | electron/firProcessor.js:184-194 | one line per coefficient |
| FirProcessor.HighResDecimals | electron/firProcessor.js:186-193 | with one decimal point, the fraction has at least 15 digits and the integer part is kept |
| FirProcessor.HighResExportLines | electron/firProcessor.js:180-195 | the lines of the high-res file are the sample-rate line, the format line and one indexed line per coefficient |
| FileManager.SampleRateHeadroom | electron/fileManager.js:43-49 | 48000 below two points; otherwise the least integer at or above 2.2 times the highest frequency |
| FileManager.DetectSampleRate | electron/fileManager.js:43-49 | the suggestion, defined: 48000 below two points, else the ceiling of 2.2 times the highest frequency; `SampleRateHeadroom` bounds it |
| FileManager.ProcessTRFFile | electron/fileManager.js:11-41 | a read failure, an error exactly when no point parses, otherwise the record with its points, count, sample rate and an attained frequency range |
| FileManager.AttainedBounds | electron/fileManager.js:30-33 | the lowest and highest frequency belong to points |
| FileManager.ValidateTRFFile | electron/fileManager.js:51-67 | valid exactly for sizes in 1..100 MiB; otherwise the stat, empty or too-large error |
| FilterStore.PatchRules | src/stores/filterStore.js:120-123 | each given key replaces its old value and the others keep theirs; an empty patch is the identity; patching is idempotent |
| FilterStore.RequestUsesStoreSettings | src/stores/filterStore.js:81-95 | the design runs with the store's settings, and the range filter is off |
| FilterStore.Store.constructor | src/stores/filterStore.js:5-21 | the initial state, with 512 taps and 48 kHz |
| FilterStore.Store.CanDesignWhenIdleWithData | src/stores/filterStore.js:23-28 | designing is possible exactly with data loaded and no work in progress |
| FilterStore.Store.LoadTRFFile | src/stores/filterStore.js:31-57 | ready with the file, idle on cancel, or error with the message; the settings and results are unchanged |
| FilterStore.Store.DesignFilter | src/stores/filterStore.js:59-118 | without data, an error and no change; without the API, an error; a request the main process or IPC rejects gives error status with its message, and the coefficients and response are unchanged; otherwise the sanitized coefficients of the store's tap count, the 1024-point response at the store's sample rate, the metadata of the store's settings with every point counted, and ready |
| FilterStore.Store.UpdateFilterConfig | src/stores/filterStore.js:120-123 | the settings become the patched settings and nothing else changes |
| FilterStore.Store.ResetState | src/stores/filterStore.js:125-132 | data, results, status and error return to initial, while the settings stay |
| FilterStore.Store.SetError | src/stores/filterStore.js:134-137 | error status with the message, and nothing else changes |
| FilterStore.Store.ClearError | src/stores/filterStore.js:139-144 | no message, an error status becomes idle, and any other status stays |
| EventHub.RemoveFirstRemovesOne | src/utils/eventHub.js:15-23 | removing an absent listener changes nothing; a present one is removed once |
| EventHub.RemoveFirstUndoesAppend | src/utils/eventHub.js:8-23 | `off` undoes an `on` of a listener not yet present |
| EventHub.PlainEmitCallsAll | src/utils/eventHub.js:25-35 | without once-listeners, emit calls every listener in order and keeps the list |
| EventHub.OnceSkipsNextListener | src/utils/eventHub.js:27 | a once-listener followed by a listener: only the first is called |
| EventHub.SnapshotCallsAll | src/utils/eventHub.js:25-43 | emitting over a snapshot calls every listener of the snapshot in order |
| EventHub.SnapshotRemovesWrappers | src/utils/eventHub.js:37-43 | emitting over a snapshot removes exactly the snapshot's once-wrappers from the live list |
| EventHub.SnapshotInvokesNextListener | src/utils/eventHub.js:25-43 | over a snapshot, the once-listener and the next listener are both called |
| EventHub.RemoveFirstKeepsTokensBelow | src/utils/eventHub.js:15-23 | removal keeps every once-wrapper token below the bound |
| EventHub.Hub.constructor | src/utils/eventHub.js:4-6 | no events |
| EventHub.Hub.On | src/utils/eventHub.js:8-13 | the listener is appended to its event's list, created if missing |
| EventHub.Hub.Off | src/utils/eventHub.js:15-23 | the first occurrence is removed; no change for an unknown event |
| EventHub.Hub.Once | src/utils/eventHub.js:37-43 | a fresh wrapper, not already in the list, is appended |
| EventHub.Hub.Emit | src/utils/eventHub.js:25-35 | the calls and the list left behind are those of `forEach` over the live list |
| EventHub.Hub.InvokeAt | src/utils/eventHub.js:27-33 | one `forEach` step: nothing past the end; a wrapper removes itself and calls its callback |
| EventHub.Hub.Clear | src/utils/eventHub.js:45-51 | a truthy name deletes that event; otherwise every event is cleared |

## Left out

- File, dialog and IPC calls: `fs.readFile`, `fs.stat`, `fs.writeFile` and the open and save dialogs become parameters: the file contents, the size and the dialog outcome. The written file is the exported string. `window.electronAPI` becomes an availability flag, and its `designFIRFilter` call is the modelled processor design plus an optional rejection message: a request the main process or the IPC layer rejects.
- Asynchrony: the store's `await` points are not modelled. Only the status set before and after each action is; a concurrent action during an await is left out.
- Reactivity: Vue's `ref` and Pinia's watchers are left out. The store and hub state are plain fields.
- Event emission: the store's `eventHub.emit` calls and the processor's `this.emit('error', …)` events are not modelled, because they do not change the modelled state.
- Floating point: numbers are exact reals. Rounding, `2 * 1.1` as a double, overflow to infinity and negative zero are not modelled. NaN appears where the source can make it: a NaN coefficient, a NaN float read, a failed `parseFloat` or `Number()`. The infinities appear as `None` for a float read, `Number()` and `log10(0)`.
- JsNumbers: the infinite results of `parseFloat` ("Infinity", "-Infinity", "1e999") are not modelled; such a field becomes a finite value or `None`. In the source `isNaN` lets an infinite phase through both text parsers' row checks (src/utils/trfParser.js:178, electron/trfParser.js:34) and through both validators, which check only frequency and magnitude; the model cannot produce that point.
- Library functions: `sin`, `cos`, `sqrt`, `atan2`, `log10`, `toFixed`, `parseFloat`, `Number()` and `readFloatLE` are abstract parameters with no properties beyond those a lemma requires.
- Strings: strings are sequences of characters. UTF-8 decoding, UTF-16 code units, and `toLowerCase` beyond ASCII are not modelled. `findBinaryDataStart` adds `line.length`, a count of UTF-16 units, to what it treats as a byte offset. The model counts characters in the same way, and the two agree only for ASCII headers.
- convertTRFToResponse: it is not modelled, because `designFilter` computes it and never uses the result.
- FirProcessor.CalculateFilterResponse: the model takes the normalized frequency as i/1024; for sample rate 0 the source divides 0 by 0 (NaN), which is not modelled.
- FirProcessor.SortByFrequency: an insertion sort stands in for `Array.prototype.sort`. Both give a sorted permutation, but the model does not state the stability that the source's comparator inherits from the engine.
- Input checks: the `!point` and `typeof` checks of the validators are left out, because the model's points always hold numbers.
- TrfAnalysis.AssessDataQuality: the mid and very-high band counts are computed by the source and never used, so they are not modelled.
- FirProcessor.MergeOptions: an options key that is present with the value `undefined` is modelled as absent.
- FirProcessor.DesignFIRFilter: a `numTaps` that is not a natural number is not modelled; the source throws a RangeError from `new Array`.
- FileManager.ProcessTRFFile: `fileName` is a parameter that stands for `path.basename(filePath)`.
- FirProcessor.Sanitize: `Number(c)` of a non-number input is not modelled; coefficients are already numbers or NaN.
- EventHub.Hub.Emit: the listeners' own actions are not modelled. In the model a callback records its call and changes nothing else, and a callback that throws is caught and logged in the source but not modelled; a once-wrapper's off-then-call is modelled in full.

## Findings

| source | as written | input that shows it | evidently intended | confidence | as-written member | corrected member |
|---|---|---|---|---|---|---|
| src/utils/eventHub.js:27 | `emit` calls `forEach` on the live listener array. A `once` wrapper splices itself out of that array during the iteration, so the listener after it moves into the visited slot and is skipped | `once(e, cb1)`, `on(e, cb2)`, `emit(e)`: only cb1 runs; cb2 stays registered but is not called | every listener registered when `emit` starts is called once, which means iterating over a copy of the array | not executed | EventHub.OnceSkipsNextListener | EventHub.SnapshotCallsAll |
| electron/firProcessor.js:100 | the centre is `Math.floor(numTaps / 2)`. For an even tap count that is half a tap past the middle of the array, so the windowed sinc is not symmetric and the filter is not linear-phase | the default 512 taps: coefficients 255 and 256 have the same Hamming weight w, but are sin(0.2 pi)/pi w (about 0.187 w) and 0.2 w | the centre at (N - 1) / 2, which gives a symmetric linear-phase design for every N and the same design for odd N | not executed | FirProcessor.EvenDesignAsymmetric | FirProcessor.CenteredDesignSymmetric |
| src/utils/trfParser.js:100 | the lines come from `split(/\r?\n/)`, which drops the carriage return of a CRLF line end, and the offset adds `length + 1` for each line above the data row. Each CRLF line end is counted one character short | "H\r\n1 2 3\r\n...": the offset is 2, the line feed, while the row begins at 3 | each line counted with its own line end (the `+1 for newline` comment), so that the offset is where the row begins | not executed | TrfParser.CrlfOffsetFallsShort | TrfParser.LineAwareOffsetLocatesDataRow |
