/**
 * The spectrum record of helper_files/spectrum_dict.py and its two
 * constructors: a spectrum read from a file, and a spectrum read from a
 * file and calibrated with the dispersion and offset of a known spectrum.
 */
module SpectrumDict {
  import opened Outcomes
  import ReadData

  /**
   * One float64 entry of `counts / counts.max()`: numpy divides by zero
   * without raising and gives infinity or not-a-number.
   */
  datatype Float = Num(x: real) | PosInf | NegInf | NaN

  /** numpy's `a / b` on float64, with exact arithmetic where `b` is not zero. */
  function Divide(a: real, b: real): (r: Float)
    ensures b != 0.0 <==> r.Num?
    ensures b != 0.0 ==> r.x * b == a
  {
    if b != 0.0 then Num(a / b)
    else if a > 0.0 then PosInf
    else if a < 0.0 then NegInf
    else NaN
  }

  /** `counts.max()`; numpy raises ValueError on an empty array, so `counts` is not empty here. */
  function Max(counts: seq<real>): (m: real)
    requires |counts| > 0
    ensures m in counts
    ensures forall i :: 0 <= i < |counts| ==> counts[i] <= m
  {
    if |counts| == 1 then counts[0]
    else
      var rest := Max(counts[1..]);
      assert forall i :: 1 <= i < |counts| ==> counts[i] == counts[1..][i - 1];
      if counts[0] >= rest then counts[0] else rest
  }

  /** `intensity = counts / counts.max()` (spectrum_dict.py:69 and :170). */
  function Normalise(counts: seq<real>): (intensity: seq<Float>)
    requires |counts| > 0
    ensures |intensity| == |counts|
  {
    var m := Max(counts);
    seq(|counts|, i requires 0 <= i < |counts| => Divide(counts[i], m))
  }

  /** The 0-based channel numbers `np.arange(0, n, 1)`. */
  function Channels(n: nat): (channel: seq<nat>)
    ensures |channel| == n
  {
    seq(n, i => i)
  }

  /** The parse parameters a known spectrum keeps so that files of the same format can be read again. */
  datatype ParseFormat = ParseFormat(
    startStr: string,
    stopStr: string,
    lineEndings: Option<string>,
    delimiter: Option<string>)

  /** The optional calibration peaks: energies, names and channels, in parallel. */
  datatype PeakInfo = PeakInfo(
    keV: Option<seq<real>>,
    names: Option<seq<string>>,
    channel: Option<seq<real>>)

  /**
   * The spectrum dictionary. `format` is `None` for a dictionary made by
   * `init_unknown_spectrum_with_known`, which has no parse-parameter keys.
   */
  datatype Spectrum = Spectrum(
    name: string,
    filepath: string,
    channel: seq<nat>,
    intensity: seq<Float>,
    counts: seq<real>,
    peaks: PeakInfo,
    dispersion: Option<real>,
    offset: Option<real>,
    kevCalibrated: Option<seq<real>>,
    fitParams: Option<seq<real>>,
    fitCov: Option<seq<seq<real>>>,
    intensityFit: Option<seq<real>>,
    format: Option<ParseFormat>)

  /** The length invariant of a spectrum record: every per-channel sequence has one entry per channel. */
  predicate WellFormed(s: Spectrum)
  {
    && |s.channel| == |s.counts| == |s.intensity|
    && (forall i :: 0 <= i < |s.channel| ==> s.channel[i] == i)
    && (s.kevCalibrated.Some? ==> |s.kevCalibrated.value| == |s.channel|)
    && (s.intensityFit.Some? ==> |s.intensityFit.value| == |s.channel|)
  }

  /** The calibration and fit fields are all still unset. */
  predicate Uncalibrated(s: Spectrum)
  {
    && s.dispersion.None? && s.offset.None? && s.kevCalibrated.None?
    && s.fitParams.None? && s.fitCov.None? && s.intensityFit.None?
  }

  /** The gate of `init_unknown_spectrum_with_known`: dispersion, offset and calibrated axis are all set. */
  predicate Calibrated(s: Spectrum)
  {
    s.dispersion.Some? && s.offset.Some? && s.kevCalibrated.Some?
  }

  /** Python truthiness of the optional delimiter: neither `None` nor the empty string. */
  predicate Truthy(delimiter: Option<string>)
  {
    delimiter.Some? && |delimiter.value| > 0
  }

  /** The reader variant `if delimiter:` selects: two columns with a delimiter, one column otherwise. */
  function SelectReader(lines: seq<string>, fmt: ParseFormat, parse: string -> Option<real>)
    : Outcome<ReadData.Columns>
  {
    if Truthy(fmt.delimiter) then
      ReadData.ReadXY(lines, fmt.startStr, fmt.stopStr, fmt.delimiter.value, fmt.lineEndings, parse)
    else
      ReadData.ReadOnlyY(lines, fmt.startStr, fmt.stopStr, fmt.lineEndings, parse)
  }

  /**
   * The reader as both constructors call it (spectrum_dict.py:54-59 and
   * :155-160), with `print_info` left at its default True. The summaries
   * then read the first line of the file (read_data.py:41) and the first
   * data entry (read_data.py:117 for two columns, :175 for one), so an
   * empty file or an empty data block raises IndexError; otherwise the
   * selected reader's outcome is passed on unchanged.
   */
  function Read(lines: seq<string>, fmt: ParseFormat, parse: string -> Option<real>): (r: Outcome<ReadData.Columns>)
    ensures |lines| == 0 ==> r == Raised(IndexError)
    ensures r.Value? ==> |r.value.counts| > 0 && r == SelectReader(lines, fmt, parse)
    ensures |lines| > 0 && !SelectReader(lines, fmt, parse).Value? ==> r == SelectReader(lines, fmt, parse)
    ensures |lines| > 0 && SelectReader(lines, fmt, parse).Value? ==>
              if |SelectReader(lines, fmt, parse).value.counts| > 0 then r.Value? else r == Raised(IndexError)
  {
    if |lines| == 0 then Raised(IndexError)
    else
      match SelectReader(lines, fmt, parse)
      case Value(data) => if |data.counts| == 0 then Raised(IndexError) else Value(data)
      case NoneReturned => NoneReturned
      case Raised(e) => Raised(e)
  }

  /**
   * `init_known_spectrum`: reads the file, keeps the counts, normalises them
   * by their maximum, numbers the channels from 0 and leaves calibration and
   * fit unset. A reader that returns `None` makes it return `None`, and
   * exceptions of the reader propagate.
   */
  function InitKnownSpectrum(name: string, filepath: string, lines: seq<string>, fmt: ParseFormat,
                             peaks: PeakInfo, parse: string -> Option<real>): (r: Outcome<Spectrum>)
    ensures r.NoneReturned? <==> Read(lines, fmt, parse).NoneReturned?
    ensures Read(lines, fmt, parse).Raised? ==> r == Raised(Read(lines, fmt, parse).error)
    ensures r.Value? <==> Read(lines, fmt, parse).Value?
    ensures r.Value? ==>
              && r.value.counts == Read(lines, fmt, parse).value.counts
              && |r.value.counts| > 0
              && WellFormed(r.value)
              && Uncalibrated(r.value)
              && r.value.intensity == Normalise(r.value.counts)
              && r.value.name == name && r.value.filepath == filepath && r.value.peaks == peaks
              && r.value.format == Some(fmt)
  {
    match Read(lines, fmt, parse)
    case Raised(e) => Raised(e)
    case NoneReturned => NoneReturned
    case Value(data) =>
      Value(Spectrum(name, filepath, Channels(|data.counts|), Normalise(data.counts), data.counts,
                     peaks, None, None, None, None, None, None, Some(fmt)))
  }

  /**
   * The parse parameters `init_unknown_spectrum_with_known` uses: each one
   * given as `None` is taken from the known spectrum, which raises KeyError
   * when the known dictionary has no parse-parameter keys.
   */
  function ResolveFormat(known: Spectrum, startStr: Option<string>, stopStr: Option<string>,
                         lineEndings: Option<string>, delimiter: Option<string>): (r: Outcome<ParseFormat>)
    ensures r.Value? || r == Raised(KeyError)
    ensures r.Value? <==>
              known.format.Some? || (startStr.Some? && stopStr.Some? && lineEndings.Some? && delimiter.Some?)
    ensures r.Value? ==>
              && r.value.startStr == (if startStr.Some? then startStr.value else known.format.value.startStr)
              && r.value.stopStr == (if stopStr.Some? then stopStr.value else known.format.value.stopStr)
              && r.value.lineEndings == (if lineEndings.Some? then lineEndings else known.format.value.lineEndings)
              && r.value.delimiter == (if delimiter.Some? then delimiter else known.format.value.delimiter)
  {
    if (startStr.None? || stopStr.None? || lineEndings.None? || delimiter.None?) && known.format.None? then
      Raised(KeyError)
    else
      Value(ParseFormat(
        if startStr.Some? then startStr.value else known.format.value.startStr,
        if stopStr.Some? then stopStr.value else known.format.value.stopStr,
        if lineEndings.Some? then lineEndings else known.format.value.lineEndings,
        if delimiter.Some? then delimiter else known.format.value.delimiter))
  }

  /**
   * `init_unknown_spectrum_with_known`: returns `None` unless the known
   * spectrum is calibrated, fills in the missing parse parameters from it,
   * reads the file like `init_known_spectrum`, returns `None` when the
   * channel count differs from the known spectrum's, and otherwise copies
   * the known calibration. The new dictionary has no parse-parameter keys.
   */
  function InitUnknownSpectrum(known: Spectrum, name: string, filepath: string, lines: seq<string>,
                               startStr: Option<string>, stopStr: Option<string>,
                               lineEndings: Option<string>, delimiter: Option<string>,
                               peaks: PeakInfo, parse: string -> Option<real>): (r: Outcome<Spectrum>)
    ensures !Calibrated(known) ==> r.NoneReturned?
    ensures var fmt := ResolveFormat(known, startStr, stopStr, lineEndings, delimiter);
            Calibrated(known) && fmt.Raised? ==> r == Raised(KeyError)
    ensures var fmt := ResolveFormat(known, startStr, stopStr, lineEndings, delimiter);
            Calibrated(known) && fmt.Value? ==>
              var data := Read(lines, fmt.value, parse);
              && (data.NoneReturned? ==> r.NoneReturned?)
              && (data.Raised? ==> r == Raised(data.error))
              && (data.Value? && |data.value.counts| != |known.channel| ==> r.NoneReturned?)
              && (data.Value? && |data.value.counts| == |known.channel| ==> r.Value?)
    ensures r.Value? ==>
              && Calibrated(known)
              && ResolveFormat(known, startStr, stopStr, lineEndings, delimiter).Value?
              && var data := Read(lines, ResolveFormat(known, startStr, stopStr, lineEndings, delimiter).value, parse);
              && data.Value?
              && r.value.counts == data.value.counts
              && r.value.intensity == Normalise(r.value.counts)
              && r.value.channel == Channels(|known.channel|)
              && r.value.dispersion == known.dispersion
              && r.value.offset == known.offset
              && r.value.kevCalibrated == known.kevCalibrated
              && r.value.fitParams.None? && r.value.fitCov.None? && r.value.intensityFit.None?
              && r.value.format.None?
              && r.value.name == name && r.value.filepath == filepath && r.value.peaks == peaks
  {
    if !Calibrated(known) then NoneReturned
    else
      match ResolveFormat(known, startStr, stopStr, lineEndings, delimiter)
      case Raised(e) => Raised(e)
      case NoneReturned => NoneReturned
      case Value(fmt) =>
        match Read(lines, fmt, parse)
        case Raised(e) => Raised(e)
        case NoneReturned => NoneReturned
        case Value(data) =>
          if |data.counts| != |known.channel| then NoneReturned
          else
            Value(Spectrum(name, filepath, Channels(|data.counts|), Normalise(data.counts), data.counts,
                           peaks, known.dispersion, known.offset, known.kevCalibrated,
                           None, None, None, None))
  }

  /**
   * Normalising by the maximum: when the maximum is positive every entry is
   * a number no greater than 1, the entries at the maximum are exactly 1,
   * and non-negative counts give non-negative intensities.
   */
  lemma NormalisedByMaximum(counts: seq<real>)
    requires |counts| > 0 && Max(counts) > 0.0
    ensures var intensity := Normalise(counts);
            forall i :: 0 <= i < |counts| ==>
              && intensity[i].Num?
              && intensity[i].x <= 1.0
              && (counts[i] == Max(counts) ==> intensity[i].x == 1.0)
              && (counts[i] >= 0.0 ==> intensity[i].x >= 0.0)
    ensures exists i :: 0 <= i < |counts| && Normalise(counts)[i] == Num(1.0)
  {
    var m := Max(counts);
    var intensity := Normalise(counts);
    forall i | 0 <= i < |counts|
      ensures && intensity[i].Num?
              && intensity[i].x <= 1.0
              && (counts[i] == m ==> intensity[i].x == 1.0)
              && (counts[i] >= 0.0 ==> intensity[i].x >= 0.0)
    {
      assert intensity[i] == Num(counts[i] / m);
      RatioToMaximum(counts[i], m);
    }
    var k :| 0 <= k < |counts| && counts[k] == m;
    assert intensity[k] == Num(1.0);
  }

  /** The division facts behind normalisation, for one entry `c` of counts with maximum `m`. */
  lemma RatioToMaximum(c: real, m: real)
    requires 0.0 < m && c <= m
    ensures c / m <= 1.0
    ensures c == m ==> c / m == 1.0
    ensures c >= 0.0 ==> c / m >= 0.0
  {
  }

  /**
   * A freshly read known spectrum keeps the length invariant; one made from
   * a well-formed known spectrum does too, because the channel counts agree.
   */
  lemma UnknownSpectrumWellFormed(known: Spectrum, name: string, filepath: string, lines: seq<string>,
                                  startStr: Option<string>, stopStr: Option<string>,
                                  lineEndings: Option<string>, delimiter: Option<string>,
                                  peaks: PeakInfo, parse: string -> Option<real>)
    requires WellFormed(known)
    ensures var r := InitUnknownSpectrum(known, name, filepath, lines, startStr, stopStr,
                                         lineEndings, delimiter, peaks, parse);
            r.Value? ==> WellFormed(r.value) && r.value.channel == known.channel
  {
  }

  /**
   * Re-reading a file of the known spectrum's own format: with all four
   * parse parameters left `None`, the unknown spectrum gets exactly the
   * counts, intensities and channels `init_known_spectrum` would give for the
   * same file, whenever the channel counts agree.
   */
  lemma UnknownRereadsKnownFormat(known: Spectrum, fmt: ParseFormat, name: string, filepath: string,
                                  lines: seq<string>, peaks: PeakInfo, parse: string -> Option<real>)
    requires Calibrated(known) && known.format == Some(fmt)
    ensures var direct := InitKnownSpectrum(name, filepath, lines, fmt, peaks, parse);
            var reread := InitUnknownSpectrum(known, name, filepath, lines, None, None, None, None, peaks, parse);
            && (direct.Value? && |direct.value.channel| == |known.channel| ==>
                  && reread.Value?
                  && reread.value.counts == direct.value.counts
                  && reread.value.intensity == direct.value.intensity
                  && reread.value.channel == direct.value.channel)
            && (direct.Value? && |direct.value.channel| != |known.channel| ==> reread.NoneReturned?)
            && (!direct.Value? ==> reread == direct)
  {
    var resolved := ResolveFormat(known, None, None, None, None);
    assert resolved == Value(fmt);
  }

  /**
   * A single-column file (no delimiter) whose marker lines are found and
   * whose data lines all parse gives a spectrum whose counts are those lines'
   * numbers in file order, with channels 0 to N-1.
   */
  lemma SingleColumnSpectrum(name: string, filepath: string, lines: seq<string>, fmt: ParseFormat,
                             peaks: PeakInfo, parse: string -> Option<real>, si: nat, ti: nat)
    requires !Truthy(fmt.delimiter)
    requires ReadData.IsFirstIndex(ReadData.StripLines(lines, fmt.lineEndings), fmt.startStr, si)
    requires ReadData.IsFirstIndex(ReadData.StripLines(lines, fmt.lineEndings), fmt.stopStr, ti)
    requires si + 1 < ti
    requires forall k :: si < k < ti ==> parse(ReadData.RStrip(lines[k], fmt.lineEndings)).Some?
    ensures var r := InitKnownSpectrum(name, filepath, lines, fmt, peaks, parse);
            && r.Value?
            && |r.value.counts| == ti - si - 1
            && (forall k :: 0 <= k < |r.value.counts| ==>
                  parse(ReadData.RStrip(lines[si + 1 + k], fmt.lineEndings)) == Some(r.value.counts[k]))
            && r.value.channel == Channels(ti - si - 1)
  {
    ReadData.ReadLinesBetweenMarkers(lines, fmt.startStr, fmt.stopStr, fmt.lineEndings, si, ti);
    var data := ReadData.ReadLines(lines, fmt.startStr, fmt.stopStr, fmt.lineEndings).value;
    assert ReadData.AllParse(data, parse) by {
      forall k | 0 <= k < |data|
        ensures parse(data[k]).Some?
      {
        assert parse(ReadData.RStrip(lines[si + 1 + k], fmt.lineEndings)).Some?;
      }
    }
    var r := InitKnownSpectrum(name, filepath, lines, fmt, peaks, parse);
    assert r.Value?;
    assert r.value.channel == Channels(ti - si - 1);
  }

  /** A single-column data line that does not parse makes the constructor return `None`. */
  lemma SingleColumnUnparsable(name: string, filepath: string, lines: seq<string>, fmt: ParseFormat,
                               peaks: PeakInfo, parse: string -> Option<real>, si: nat, ti: nat, k: nat)
    requires !Truthy(fmt.delimiter)
    requires ReadData.IsFirstIndex(ReadData.StripLines(lines, fmt.lineEndings), fmt.startStr, si)
    requires ReadData.IsFirstIndex(ReadData.StripLines(lines, fmt.lineEndings), fmt.stopStr, ti)
    requires si < k < ti && parse(ReadData.RStrip(lines[k], fmt.lineEndings)).None?
    ensures InitKnownSpectrum(name, filepath, lines, fmt, peaks, parse).NoneReturned?
  {
    ReadData.ReadLinesBetweenMarkers(lines, fmt.startStr, fmt.stopStr, fmt.lineEndings, si, ti);
    var data := ReadData.ReadLines(lines, fmt.startStr, fmt.stopStr, fmt.lineEndings).value;
    assert parse(data[k - si - 1]).None?;
  }

  /**
   * A two-column file (delimiter given) whose data lines each have at least
   * two fields that all parse gives a spectrum whose counts are the second
   * fields; the first column is read and then dropped, and the channels
   * are 0 to N-1 whatever it holds.
   */
  lemma TwoColumnSpectrum(name: string, filepath: string, lines: seq<string>, fmt: ParseFormat,
                          peaks: PeakInfo, parse: string -> Option<real>, si: nat, ti: nat)
    requires Truthy(fmt.delimiter)
    requires ReadData.IsFirstIndex(ReadData.StripLines(lines, fmt.lineEndings), fmt.startStr, si)
    requires ReadData.IsFirstIndex(ReadData.StripLines(lines, fmt.lineEndings), fmt.stopStr, ti)
    requires si + 1 < ti
    requires forall k :: si < k < ti ==>
               var fields := ReadData.Split(ReadData.RStrip(lines[k], fmt.lineEndings), fmt.delimiter.value);
               |fields| >= 2 && ReadData.AllParse(fields, parse)
    ensures var r := InitKnownSpectrum(name, filepath, lines, fmt, peaks, parse);
            && r.Value?
            && |r.value.counts| == ti - si - 1
            && (forall k :: 0 <= k < |r.value.counts| ==>
                  var fields := ReadData.Split(ReadData.RStrip(lines[si + 1 + k], fmt.lineEndings), fmt.delimiter.value);
                  parse(fields[1]) == Some(r.value.counts[k]))
            && r.value.channel == Channels(ti - si - 1)
  {
    var delimiter := fmt.delimiter.value;
    ReadData.ReadLinesBetweenMarkers(lines, fmt.startStr, fmt.stopStr, fmt.lineEndings, si, ti);
    var read := ReadData.ReadLines(lines, fmt.startStr, fmt.stopStr, fmt.lineEndings);
    var data := read.value;
    assert forall k :: 0 <= k < |data| ==> data[k] == ReadData.RStrip(lines[si + 1 + k], fmt.lineEndings);
    forall k | 0 <= k < |data|
      ensures ReadData.ParseRow(data[k], delimiter, parse).Some?
      ensures |ReadData.ParseRow(data[k], delimiter, parse).value| >= 2
    {
      assert data[k] == ReadData.RStrip(lines[si + 1 + k], fmt.lineEndings);
    }
    ReadData.XYColumnsSpec(read, delimiter, parse);
    var rows := seq(|data|, i requires 0 <= i < |data| => ReadData.ParseRow(data[i], delimiter, parse).value);
    assert !exists i :: 0 <= i < |rows| && |rows[i]| < 2;
    var r := InitKnownSpectrum(name, filepath, lines, fmt, peaks, parse);
    assert r.Value?;
  }

  /**
   * A missing marker line: `read_lines` returns `None`, the reader then
   * iterates over `None`, and the constructor raises TypeError. An empty
   * file has no marker either, but its summary already fails on its first
   * line with IndexError.
   */
  lemma MissingMarkerRaises(name: string, filepath: string, lines: seq<string>, fmt: ParseFormat,
                            peaks: PeakInfo, parse: string -> Option<real>)
    requires fmt.startStr !in ReadData.StripLines(lines, fmt.lineEndings)
             || fmt.stopStr !in ReadData.StripLines(lines, fmt.lineEndings)
    ensures InitKnownSpectrum(name, filepath, lines, fmt, peaks, parse)
            == Raised(if |lines| == 0 then IndexError else TypeError)
  {
    ReadData.XYColumnsSpec(None, if Truthy(fmt.delimiter) then fmt.delimiter.value else "", parse);
  }

  /**
   * Marker lines with nothing between them: both readers give empty
   * columns, and the summary printed for the constructor then indexes the
   * first data entry and raises IndexError.
   */
  lemma EmptyBlockRaises(name: string, filepath: string, lines: seq<string>, fmt: ParseFormat,
                         peaks: PeakInfo, parse: string -> Option<real>, si: nat, ti: nat)
    requires ReadData.IsFirstIndex(ReadData.StripLines(lines, fmt.lineEndings), fmt.startStr, si)
    requires ReadData.IsFirstIndex(ReadData.StripLines(lines, fmt.lineEndings), fmt.stopStr, ti)
    requires ti <= si + 1
    ensures InitKnownSpectrum(name, filepath, lines, fmt, peaks, parse) == Raised(IndexError)
  {
    ReadData.ReadLinesBetweenMarkers(lines, fmt.startStr, fmt.stopStr, fmt.lineEndings, si, ti);
    var read := ReadData.ReadLines(lines, fmt.startStr, fmt.stopStr, fmt.lineEndings);
    assert read == Some([]);
    ReadData.XYColumnsSpec(read, if Truthy(fmt.delimiter) then fmt.delimiter.value else "", parse);
  }
}
