# Spectroscopy channel calibration — a Dafny model of the analysis helpers

The repository calibrates the channel axis of spectra. It reads a
spectrum from a text file, where the data lines sit between a start marker
line and a stop marker line. It keeps the spectrum in a dictionary. It
computes a linear channel-to-keV calibration from two known peaks. It fits
sums of Gaussians to peaks. It saves and reloads the dictionary as JSON.

This project models the list, string and record logic of those helpers
and proves what they promise:

- `ReadData` (`helper_files/read_data.py`): `read_lines` strips each line,
  finds the first start and stop marker lines and returns the lines between
  them. `read_only_y_data` parses one number per line and numbers the
  channels from 0. `read_xy_data` splits each line and keeps the first two
  fields. The two readers are loops (`ReadOnlyYData`, `ReadXYData`), proved
  equal to the declarative readers `ReadOnlyY` and `ReadXY`.
- `SpectrumDict` (`helper_files/spectrum_dict.py`): the spectrum record and
  its two constructors, `init_known_spectrum` and
  `init_unknown_spectrum_with_known`. Covered: choosing a reader by the
  delimiter, normalising by the maximum, the calibration gate, defaulting
  the parse parameters and rejecting a channel-count mismatch.
- `Calibration` (`helper_files/calibration.py`): the two-peak dispersion and
  offset, with the round trip from its derivation and its uniqueness.
- `GaussianFitting` (`helper_files/gaussian_fitting.py`): the summation loop
  of `n_gaussians`, with the single-peak function as a parameter. Also the
  broadcasting and packing of the initial guesses in
  `fit_n_peaks_to_gaussian`.
- `SavingJson` (`helper_files/saving_json.py`): the per-key array/list
  conversion loops of saving and loading, and the output file name.
- `Outcomes`: how a Python call ends. It returns a value, returns `None`
  (`NoneReturned`), or raises an exception the helper does not catch
  (`Raised`, with the exception class).

A missing marker line makes `read_lines` return `None` (read_data.py:51-55).
Neither reader checks for it: both iterate over that `None` (read_data.py:107
and :161), and the `try` around the `for` at :161 catches only ValueError.
So, for a non-empty file, both readers and both spectrum constructors raise TypeError. `OnlyYColumns`,
`XYColumnsSpec` and `SpectrumDict.MissingMarkerRaises` state this.

## Model

| member | source | states |
|---|---|---|
| ReadData.RStrip | helper_files/read_data.py:44 | `line.rstrip(line_endings)`; it has no contract of its own, and `RStripSpec` states what it keeps and removes |
| ReadData.RStripSpec | helper_files/read_data.py:44 | `rstrip(line_endings)` keeps a prefix of the line, every removed character belongs to the character set (Python whitespace when the set is `None`), and the kept line does not end in one |
| ReadData.StripLines | helper_files/read_data.py:44 | the comprehension keeps one line per file line; `StripLinesAt` states that each is the stripped file line |
| ReadData.StripLinesAt | helper_files/read_data.py:44 | every line is stripped individually and the list keeps its length and order |
| ReadData.IndexOf | helper_files/read_data.py:48-49 | `list.index` yields the first position holding exactly the marker, and fails exactly when the marker is absent |
| ReadData.FirstIndexUnique | helper_files/read_data.py:48-49 | the first position of a marker is unique |
| ReadData.MarkedSlice | helper_files/read_data.py:47-67 | the slice is missing exactly when either marker is missing |
| ReadData.MarkedSliceBetween | helper_files/read_data.py:60-67 | with both markers found, the result is `xs[start+1:stop]`, and empty when stop does not come after start |
| ReadData.ReadLinesBetweenMarkers | helper_files/read_data.py:44-67 | the data has `max(0, stop-start-1)` lines, and data line k is the stripped file line `start+1+k` |
| ReadData.StrippedSlice | helper_files/read_data.py:44-67 | slicing the stripped lines between two positions gives the stripped lines of the file in that range, in order |
| ReadData.ReadLines | helper_files/read_data.py:44-67 | `read_lines` returns `None` exactly when a marker is absent from the stripped lines; `ReadLinesBetweenMarkers` states which lines it returns otherwise |
| ReadData.ParseAll | helper_files/read_data.py:108 | parsing a list succeeds iff every entry parses, keeping length and order |
| ReadData.OnlyYColumns | helper_files/read_data.py:154-171 | iterating `None` raises TypeError; any unparsable line gives `None`; a block whose lines all parse gives a value, whose counts are the parsed lines in order and whose channels are 0..N-1 |
| ReadData.ReadOnlyY | helper_files/read_data.py:154-171 | the single-column reader of a file raises TypeError exactly when a marker is missing, gives a value when both markers are found and every data line parses, and gives channels 0..N-1 beside its N counts; `OnlyYColumns` states the counts |
| ReadData.OnlyYLoop | helper_files/read_data.py:157-171 | the append loop returns exactly what the declarative single-column reader returns, `None` at an unparsable line included |
| ReadData.ReadOnlyYData | helper_files/read_data.py:154-171 | `read_lines` followed by the loop is the single-column reader of the file |
| ReadData.FindFrom | helper_files/read_data.py:108 | the search for the delimiter finds the leftmost occurrence at or after a position, or reports that there is none |
| ReadData.Split | helper_files/read_data.py:108 | `line.split(delimiter)` gives at least one piece; `SplitSpec` and `SplitLeftmost` state which pieces |
| ReadData.SplitJoin | helper_files/read_data.py:108 | joining the pieces of `split(delimiter)` with the delimiter gives the line back |
| ReadData.SplitPiecesClean | helper_files/read_data.py:108 | no piece of `split(delimiter)` contains the delimiter |
| ReadData.SplitSpec | helper_files/read_data.py:108 | `split(delimiter)` loses nothing: joining the pieces with the delimiter gives the line back, and no piece contains the delimiter |
| ReadData.SplitLeftmost | helper_files/read_data.py:108 | the first piece runs up to the leftmost occurrence of the delimiter (or is the whole line), and the other pieces are the split of what follows it, so overlapping delimiters are cut as Python cuts them |
| ReadData.ParseRow | helper_files/read_data.py:108 | a data line parses iff every piece of `split(delimiter)` parses, giving one number per piece in order |
| ReadData.XYColumns | helper_files/read_data.py:107-121 | the two-column loop as a function of the read lines; it has no contract of its own, and `XYColumnsSpec` states its results |
| ReadData.XYColumnsSpec | helper_files/read_data.py:101-121 | `None` data raises TypeError; `None` is never returned; an unparsable field raises ValueError; lines that all have at least two fields, all parsing, give a value; on success both columns have one entry per line, from fields 0 and 1 |
| ReadData.ReadXY | helper_files/read_data.py:101-121 | the two-column reader of a file raises TypeError when a marker is missing, never returns `None`, gives a value when every data line has at least two fields that all parse, and gives one channel per count |
| ReadData.XYLoop | helper_files/read_data.py:103-121 | the append loop returns exactly what the declarative two-column reader returns, including its error cases |
| ReadData.ReadXYData | helper_files/read_data.py:101-121 | `read_lines` followed by the loop is the two-column reader of the file |
| SpectrumDict.Divide | helper_files/spectrum_dict.py:69 | numpy division gives a number exactly when the divisor is not zero, and that number times the divisor is the dividend |
| SpectrumDict.Max | helper_files/spectrum_dict.py:69 | the maximum is an entry of the counts and no entry exceeds it |
| SpectrumDict.Normalise | helper_files/spectrum_dict.py:69 | `counts / counts.max()` has one intensity per count, entry i being `Divide(counts[i], max)` by its definition; `NormalisedByMaximum` states the bounds: at most 1, exactly 1 at the maximum, non-negative for non-negative counts |
| SpectrumDict.Channels | helper_files/spectrum_dict.py:70 | `np.arange(0, n, 1)` has n channels |
| SpectrumDict.NormalisedByMaximum | helper_files/spectrum_dict.py:69 | with a positive maximum every intensity is a number at most 1, it is exactly 1 at the maximum, and it is non-negative for non-negative counts |
| SpectrumDict.SelectReader | helper_files/spectrum_dict.py:54-59 | the `if delimiter:` choice (also at :155-160): the two-column reader for a non-empty delimiter, the single-column reader otherwise; it has no contract of its own, and `TwoColumnSpectrum` and `SingleColumnSpectrum` state which reader runs and what it gives |
| SpectrumDict.Read | helper_files/spectrum_dict.py:54-59 | the reader chosen by the delimiter, called with `print_info` on: an empty file raises IndexError (read_data.py:41), an empty data block raises IndexError (read_data.py:117 and :175), and otherwise the reader's outcome is passed on, so a value always has at least one count |
| SpectrumDict.InitKnownSpectrum | helper_files/spectrum_dict.py:54-93 | `None` from the reader gives `None`; reader exceptions propagate; a spectrum is built exactly when the reader gives data; a built spectrum keeps the read counts, is well formed with channels 0..N-1, has intensity = counts / max, has every calibration and fit field unset, and stores the parse parameters |
| SpectrumDict.SingleColumnSpectrum | helper_files/spectrum_dict.py:54-78 | without a delimiter, a file whose markers are found and whose data lines parse gives its numbers as counts, in file order, with channels 0..N-1 |
| SpectrumDict.SingleColumnUnparsable | helper_files/spectrum_dict.py:58-64 | a single-column data line that does not parse makes the constructor return `None` |
| SpectrumDict.TwoColumnSpectrum | helper_files/spectrum_dict.py:54-78 | with a delimiter, the counts are the second fields of the data lines, and the channels are 0..N-1 whatever the first column holds |
| SpectrumDict.MissingMarkerRaises | helper_files/spectrum_dict.py:54-60 | a missing marker line makes the constructor raise TypeError, through either reader, and IndexError when the file is empty |
| SpectrumDict.EmptyBlockRaises | helper_files/spectrum_dict.py:54-60 | marker lines with no data line between them make the constructor raise IndexError from the reader's summary, through either reader |
| SpectrumDict.ResolveFormat | helper_files/spectrum_dict.py:145-152 | each parse parameter given as `None` is taken from the known spectrum and the others are kept; KeyError when the known dictionary has no parse-parameter keys |
| SpectrumDict.InitUnknownSpectrum | helper_files/spectrum_dict.py:131-199 | an uncalibrated known spectrum gives `None`; a known dictionary without parse-parameter keys raises KeyError; with the resolved parameters, `None` from the reader gives `None`, reader exceptions propagate, a channel-count mismatch gives `None`, and a matching count gives a spectrum; a built spectrum holds the counts read from the file with intensity = counts / max, has the known channel count, copies dispersion, offset and calibrated axis, leaves the fit fields unset and has no parse-parameter keys |
| SpectrumDict.UnknownSpectrumWellFormed | helper_files/spectrum_dict.py:170-186 | from a well-formed known spectrum the new spectrum is well formed, with the same channels |
| SpectrumDict.UnknownRereadsKnownFormat | helper_files/spectrum_dict.py:144-177 | with all parse parameters left `None`, the file is read exactly as `init_known_spectrum` reads it; a channel-count mismatch gives `None`, and failures are the same |
| Calibration.CalibrateTwoPeaks | helper_files/calibration.py:22-38 | the dispersion is not zero and spans the first two peaks' energy distance over their channel distance; the map sends both reference channels to their energies |
| Calibration.CalibrationUnique | helper_files/calibration.py:22-38 | any dispersion and offset that send both reference channels to their energies are the computed ones |
| Calibration.CalibrationRecovers | helper_files/calibration.py:26-32 | peaks placed where a calibration puts two energies calibrate back to that dispersion and offset |
| GaussianFitting.TripleSum | helper_files/gaussian_fitting.py:52-53 | the running sum over the first n peaks at one point; it has no contract of its own, and `TripleSumPrefix`, `TripleSumConcat` and `PackedGuessIsPeakSum` state its properties |
| GaussianFitting.SumOfGaussians | helper_files/gaussian_fitting.py:50-54 | the sum has one entry per point, and it is all zeros when there is no complete parameter triple |
| GaussianFitting.OnePeak | helper_files/gaussian_fitting.py:50-54 | with one complete triple the sum is the single-peak function of that triple |
| GaussianFitting.NGaussians | helper_files/gaussian_fitting.py:50-54 | the accumulate-one-peak-at-a-time loop returns the sum over all `len(args)/3` complete triples at every point |
| GaussianFitting.TripleSumPrefix | helper_files/gaussian_fitting.py:52-53 | the sum of the first n peaks reads only the first 3n parameters |
| GaussianFitting.IncompleteTripleIgnored | helper_files/gaussian_fitting.py:50 | one or two trailing parameters do not change the sum |
| GaussianFitting.TripleSumConcat | helper_files/gaussian_fitting.py:52-53 | the sum over concatenated peak lists is the sum of the two lists' sums |
| GaussianFitting.SumOfGaussiansConcat | helper_files/gaussian_fitting.py:50-54 | the model is additive in its peaks at every point |
| GaussianFitting.Broadcast | helper_files/gaussian_fitting.py:92-95 | the default guess 1 becomes k ones for k guessed peaks, and any other guess is kept |
| GaussianFitting.At | helper_files/gaussian_fitting.py:100-102 | indexing a guess succeeds exactly for a per-peak list long enough |
| GaussianFitting.Interleave | helper_files/gaussian_fitting.py:98-102 | the packed list has 3k entries with amplitude, centre and width of peak i at 3i, 3i+1 and 3i+2 |
| GaussianFitting.InitialGuess | helper_files/gaussian_fitting.py:92-104 | packing succeeds iff there is at least one peak and both broadcast guesses cover every peak; with no peak it raises NameError (UnboundLocalError); otherwise a guess still scalar when indexed raises TypeError and a list that runs out raises IndexError, the amplitude guess being indexed first; on success it is the interleaved list |
| GaussianFitting.PackedGuessIsPeakSum | helper_files/gaussian_fitting.py:52-53 | the model evaluated at the packed guess is the sum of the guessed peaks, peak by peak |
| SavingJson.ToList | helper_files/saving_json.py:22-25 | `tolist()` turns an array into a list of the same elements and leaves every other value unchanged; no array remains |
| SavingJson.AsArray | helper_files/saving_json.py:67 | `np.array` turns a list into an array of the same elements and a plain value into an array of no dimension |
| SavingJson.Saved | helper_files/saving_json.py:20-25 | the saved dictionary has the same keys, every one-dimensional array becomes a list of the same elements in order, and every other value is unchanged |
| SavingJson.Loaded | helper_files/saving_json.py:51-67 | loading keeps the keys, turns every value under one of the eight listed keys into an array, and leaves every other value untouched |
| SavingJson.SaveSpectrum | helper_files/saving_json.py:20-27 | the key-by-key loop writes the saved dictionary to the derived path; a missing `filepath` raises KeyError and a non-string one raises AttributeError |
| SavingJson.LoadSpectrum | helper_files/saving_json.py:65-67 | the in-place overwrite loop gives the loaded dictionary |
| SavingJson.ListedArraysRoundTrip | helper_files/saving_json.py:22-23 | an array under a listed key comes back as the same array after saving and loading |
| SavingJson.UnlistedArraysComeBackAsLists | helper_files/saving_json.py:65-67 | an array under an unlisted key, such as `peaks_keV`, comes back as a list of the same elements |
| SavingJson.UnlistedValuesRoundTrip | helper_files/saving_json.py:20-25 | a non-array value under an unlisted key survives the round trip |
| SavingJson.ConversionsIdempotent | helper_files/saving_json.py:20-25 | saving twice is saving once, and loading twice is loading once |
| SavingJson.LastPart | helper_files/saving_json.py:27 | `split('/')[-1]`; it has no contract of its own, and `LastPartSpec` states it |
| SavingJson.FirstPart | helper_files/saving_json.py:27 | `split('.')[0]`; it has no contract of its own, and `FirstPartSpec` states it |
| SavingJson.OutputName | helper_files/saving_json.py:27 | the output path; it has no contract of its own, and `OutputNameStem` states which part of the file path it keeps |
| SavingJson.OccursAtChar | helper_files/saving_json.py:27 | a one-character separator occurs exactly at the positions holding that character |
| SavingJson.LastPartSpec | helper_files/saving_json.py:27 | `split('/')[-1]` is a suffix without '/', preceded by '/' unless it is the whole path |
| SavingJson.FirstPartSpec | helper_files/saving_json.py:27 | `split('.')[0]` is a prefix without '.', followed by '.' unless it is the whole name |
| SavingJson.OutputNameStem | helper_files/saving_json.py:27 | the output path is `Lab3_data_calibrated/` + stem + `_calibrated.json`; the stem starts after the last '/' and stops before the first '.' after it |

## Left out

- Opening and reading files, cp1252 decoding and `readlines`: a file is given as its list of lines, with line endings still attached.
- All `print` output. The readers in `ReadData` are modelled with `print_info` off. The constructors call them with `print_info` on, and `SpectrumDict.Read` adds the IndexErrors those summaries raise: `lines[0]` on an empty file (read_data.py:41) and the first data entry of an empty block (read_data.py:117 and :175).
- `float()` string parsing: a parameter `parse` that gives a number or fails.
- `read_xy_data` with delimiter `None` (whitespace splitting): the constructors call it only with a non-empty delimiter.
- Start and stop markers given as `None`: markers are strings here.
- `gaussian`, `np.exp`, `curve_fit` and `area_under_peak` (`norm.cdf`): floating-point numerics and foreign library calls. The single-peak function is a parameter, and the fit itself is not modelled.
- helper_files/error_calculation.py and helper_files/plotting.py are not part of this model (statistics and plot construction).
- Floating-point rounding: every number is an exact real. NaN or infinite counts are not modelled; only the division by a zero maximum yields them.
- Calibration.CalibrateTwoPeaks: its precondition leaves out three inputs the code accepts and fails on. With fewer than two entries in either list, the code raises IndexError at calibration.py:23-24. With two equal channels it divides by zero at :27, and with two equal energies (a zero dispersion) it divides by zero at :32. For Python numbers that raises ZeroDivisionError; numpy floats give an infinite or not-a-number result with only a warning. The model does not include these error results.
- GaussianFitting.InitialGuess: guesses passed as numpy arrays are not modelled. There, `guessed_std == 1` compares element-wise and the `if` raises for more than one peak. A per-peak guess is a list here.
- SavingJson: `json.dumps`, `json.load` and file writing are not modelled. The written dictionary is taken to read back unchanged, key order is not modelled, and arrays are at most one-dimensional (`fit_cov` is two-dimensional in the source).
