/**
 * The marker-delimited text reader of helper_files/read_data.py.
 *
 * A data file is given as the list of its lines, as `readlines()` returns
 * them (line terminators still attached). Number parsing (Python's `float`)
 * is a parameter `parse`: `None` stands for the ValueError `float` raises.
 */
module ReadData {
  import opened Outcomes

  /** Python's `str.isspace()`: what `rstrip(None)` removes. */
  predicate IsPythonSpace(c: char)
  {
    || c == ' ' || '\t' <= c <= '\r' || '\U{001C}' <= c <= '\U{001F}'
    || c == '\U{0085}' || c == '\U{00A0}' || c == '\U{1680}' || '\U{2000}' <= c <= '\U{200A}'
    || c == '\U{2028}' || c == '\U{2029}' || c == '\U{202F}' || c == '\U{205F}' || c == '\U{3000}'
  }

  /**
   * The characters `rstrip(lineEndings)` removes: those of the string, taken
   * as a set of characters and not as a suffix, or white space for `None`.
   */
  predicate InStripSet(c: char, lineEndings: Option<string>)
  {
    match lineEndings
    case None => IsPythonSpace(c)
    case Some(ends) => c in ends
  }

  /** Python's `line.rstrip(lineEndings)`. */
  function RStrip(line: string, lineEndings: Option<string>): string
    decreases |line|
  {
    if |line| > 0 && InStripSet(line[|line| - 1], lineEndings) then RStrip(line[..|line| - 1], lineEndings)
    else line
  }

  /**
   * `rstrip` keeps a prefix of the line, removes every character after it,
   * each of which is in the strip set, and stops at the first character from
   * the end that is not.
   */
  lemma {:induction false} RStripSpec(line: string, lineEndings: Option<string>)
    ensures var r := RStrip(line, lineEndings);
            && |r| <= |line| && r == line[..|r|]
            && (|r| == 0 || !InStripSet(r[|r| - 1], lineEndings))
            && forall i :: |r| <= i < |line| ==> InStripSet(line[i], lineEndings)
    decreases |line|
  {
    if |line| > 0 && InStripSet(line[|line| - 1], lineEndings) {
      var shorter := line[..|line| - 1];
      RStripSpec(shorter, lineEndings);
      assert shorter[..|RStrip(shorter, lineEndings)|] == line[..|RStrip(shorter, lineEndings)|];
    }
  }

  /** The lines after the list comprehension at read_data.py:44. */
  function StripLines(lines: seq<string>, lineEndings: Option<string>): (r: seq<string>)
    ensures |r| == |lines|
  {
    seq(|lines|, i requires 0 <= i < |lines| => RStrip(lines[i], lineEndings))
  }

  lemma StripLinesAt(lines: seq<string>, lineEndings: Option<string>, i: nat)
    requires i < |lines|
    ensures StripLines(lines, lineEndings)[i] == RStrip(lines[i], lineEndings)
  {
  }

  /** `i` is the position of the first line equal to `x`. */
  predicate IsFirstIndex(xs: seq<string>, x: string, i: int)
  {
    0 <= i < |xs| && xs[i] == x && forall j :: 0 <= j < i ==> xs[j] != x
  }

  /** Python's `list.index`; `None` where Python raises ValueError. */
  function IndexOf(xs: seq<string>, x: string): (r: Option<nat>)
    ensures r.Some? ==> IsFirstIndex(xs, x, r.value)
    ensures r.None? <==> x !in xs
  {
    if |xs| == 0 then None
    else if xs[0] == x then Some(0)
    else
      match IndexOf(xs[1..], x)
      case None => (assert xs == [xs[0]] + xs[1..]; None)
      case Some(i) => Some(i + 1)
  }

  lemma FirstIndexUnique(xs: seq<string>, x: string, i: int, j: int)
    requires IsFirstIndex(xs, x, i) && IsFirstIndex(xs, x, j)
    ensures i == j
  {
  }

  /**
   * The marker search and slice of `read_lines` on the stripped lines: the
   * Python slice `xs[start + 1 : stop]` between the first lines equal to
   * the markers, or `None` when a marker is missing.
   */
  function MarkedSlice(xs: seq<string>, start: string, stop: string): (r: Option<seq<string>>)
    ensures r.None? <==> start !in xs || stop !in xs
  {
    match (IndexOf(xs, start), IndexOf(xs, stop))
    case (Some(si), Some(ti)) => Some(if si + 1 <= ti then xs[si + 1..ti] else [])
    case _ => None
  }

  lemma MarkedSliceBetween(xs: seq<string>, start: string, stop: string, si: nat, ti: nat)
    requires IsFirstIndex(xs, start, si) && IsFirstIndex(xs, stop, ti)
    ensures MarkedSlice(xs, start, stop) == Some(if si < ti then xs[si + 1..ti] else [])
  {
    FirstIndexUnique(xs, start, IndexOf(xs, start).value, si);
    FirstIndexUnique(xs, stop, IndexOf(xs, stop).value, ti);
  }

  /**
   * `read_lines`: strips the line endings from every line, then takes the
   * lines strictly between the first start marker and the first stop marker.
   * A missing marker is the only way it returns `None`.
   */
  function ReadLines(lines: seq<string>, start: string, stop: string, lineEndings: Option<string>)
    : (r: Option<seq<string>>)
    ensures r.None? <==> start !in StripLines(lines, lineEndings) || stop !in StripLines(lines, lineEndings)
  {
    MarkedSlice(StripLines(lines, lineEndings), start, stop)
  }

  /** The data lines are exactly the stripped lines strictly between the two first marker lines. */
  lemma ReadLinesBetweenMarkers(lines: seq<string>, start: string, stop: string,
                                lineEndings: Option<string>, si: nat, ti: nat)
    requires IsFirstIndex(StripLines(lines, lineEndings), start, si)
    requires IsFirstIndex(StripLines(lines, lineEndings), stop, ti)
    ensures ReadLines(lines, start, stop, lineEndings).Some?
    ensures var data := ReadLines(lines, start, stop, lineEndings).value;
            && |data| == (if si < ti then ti - si - 1 else 0)
            && forall k :: 0 <= k < |data| ==> data[k] == RStrip(lines[si + 1 + k], lineEndings)
  {
    var stripped := StripLines(lines, lineEndings);
    MarkedSliceBetween(stripped, start, stop, si, ti);
    StrippedSlice(lines, lineEndings, si, ti);
  }

  /** Slicing the stripped lines is stripping the sliced lines. */
  lemma StrippedSlice(lines: seq<string>, lineEndings: Option<string>, si: nat, ti: nat)
    requires si < |lines| && ti <= |lines|
    ensures var data := if si < ti then StripLines(lines, lineEndings)[si + 1..ti] else [];
            && |data| == (if si < ti then ti - si - 1 else 0)
            && forall k :: 0 <= k < |data| ==> data[k] == RStrip(lines[si + 1 + k], lineEndings)
  {
  }

  /** Every string parses (`float` raises on none of them). */
  predicate AllParse(xs: seq<string>, parse: string -> Option<real>)
  {
    forall i :: 0 <= i < |xs| ==> parse(xs[i]).Some?
  }

  /** `[float(x) for x in xs]`: all the numbers in order, or `None` when one `float` call raises. */
  function ParseAll(xs: seq<string>, parse: string -> Option<real>): (r: Option<seq<real>>)
    ensures r.Some? <==> AllParse(xs, parse)
    ensures r.Some? ==> |r.value| == |xs| && forall i :: 0 <= i < |xs| ==> parse(xs[i]) == Some(r.value[i])
    decreases |xs|
  {
    if |xs| == 0 then Some([])
    else
      match (parse(xs[0]), ParseAll(xs[1..], parse))
      case (Some(x), Some(rest)) => Some([x] + rest)
      case (None, _) => None
      case (_, None) =>
        assert !AllParse(xs[1..], parse);
        None
  }

  /** The two rows of the array the readers return: channels and counts. */
  datatype Columns = Columns(channels: seq<real>, counts: seq<real>)

  /**
   * What `read_only_y_data` makes of the result `read` of `read_lines`:
   * every data line is one number and the channels are the 0-based
   * positions. A line that does not parse makes it return `None`; a missing
   * marker makes its loop iterate over `None` (TypeError, not caught).
   */
  function OnlyYColumns(read: Option<seq<string>>, parse: string -> Option<real>): (r: Outcome<Columns>)
    ensures read.None? <==> r == Raised(TypeError)
    ensures r.NoneReturned? <==> read.Some? && !AllParse(read.value, parse)
    ensures read.Some? && AllParse(read.value, parse) ==> r.Value?
    ensures r.Value? ==>
              && |r.value.counts| == |read.value| && |r.value.channels| == |read.value|
              && (forall i :: 0 <= i < |read.value| ==> parse(read.value[i]) == Some(r.value.counts[i]))
              && (forall i :: 0 <= i < |read.value| ==> r.value.channels[i] == i as real)
  {
    match read
    case None => Raised(TypeError)
    case Some(data) =>
      match ParseAll(data, parse)
      case None => NoneReturned
      case Some(counts) => Value(Columns(seq(|counts|, i => i as real), counts))
  }

  /**
   * `read_only_y_data` on a file with the given lines: TypeError exactly
   * when a marker is missing, a value when both markers are found and every
   * data line parses, and channels 0 to N-1 beside the N counts.
   */
  function ReadOnlyY(lines: seq<string>, start: string, stop: string, lineEndings: Option<string>,
                     parse: string -> Option<real>): (r: Outcome<Columns>)
    ensures r == Raised(TypeError)
            <==> start !in StripLines(lines, lineEndings) || stop !in StripLines(lines, lineEndings)
    ensures var read := ReadLines(lines, start, stop, lineEndings);
            read.Some? && AllParse(read.value, parse) ==> r.Value?
    ensures r.Value? ==>
              && |r.value.channels| == |r.value.counts|
              && forall i :: 0 <= i < |r.value.channels| ==> r.value.channels[i] == i as real
  {
    OnlyYColumns(ReadLines(lines, start, stop, lineEndings), parse)
  }

  /** `read_only_y_data` (read_data.py:154-171): `read_lines`, then the parsing loop. */
  method ReadOnlyYData(lines: seq<string>, start: string, stop: string, lineEndings: Option<string>,
                       parse: string -> Option<real>) returns (r: Outcome<Columns>)
    ensures r == ReadOnlyY(lines, start, stop, lineEndings, parse)
  {
    var read := ReadLines(lines, start, stop, lineEndings);
    r := OnlyYLoop(read, parse);
  }

  /**
   * The loop of `read_only_y_data` (read_data.py:157-171): appends one
   * number per data line, gives up with `None` at the first line that does
   * not parse, then numbers the channels.
   */
  method OnlyYLoop(read: Option<seq<string>>, parse: string -> Option<real>) returns (r: Outcome<Columns>)
    ensures r == OnlyYColumns(read, parse)
  {
    if read.None? {
      return Raised(TypeError);
    }
    var data := read.value;
    var counts: seq<real> := [];
    var i := 0;
    while i < |data|
      invariant 0 <= i <= |data|
      invariant |counts| == i
      invariant forall k :: 0 <= k < i ==> parse(data[k]) == Some(counts[k])
    {
      var x := parse(data[i]);
      if x.None? {
        assert !AllParse(data, parse);
        return NoneReturned;
      }
      counts := counts + [x.value];
      i := i + 1;
    }
    var expected := ParseAll(data, parse);
    assert expected.Some? && expected.value == counts;
    var channels := seq(|counts|, k => k as real);
    r := Value(Columns(channels, counts));
  }

  /** `sep` occurs in `s` starting at position `j`. */
  predicate OccursAt(s: string, sep: string, j: int)
  {
    0 <= j && j + |sep| <= |s| && s[j..j + |sep|] == sep
  }

  /** Python's `s.find(sep, from)`: the leftmost occurrence of `sep` at or after `from`. */
  function FindFrom(s: string, sep: string, from: nat): (r: Option<nat>)
    ensures r.Some? ==> from <= r.value && OccursAt(s, sep, r.value)
    ensures r.Some? ==> forall j :: from <= j < r.value ==> !OccursAt(s, sep, j)
    ensures r.None? ==> forall j :: from <= j ==> !OccursAt(s, sep, j)
    decreases |s| - from
  {
    if from + |sep| > |s| then None
    else if s[from..from + |sep|] == sep then Some(from)
    else FindFrom(s, sep, from + 1)
  }

  /** Joins pieces with `sep` between them (Python's `sep.join`). */
  function Join(parts: seq<string>, sep: string): string
  {
    if |parts| == 0 then ""
    else if |parts| == 1 then parts[0]
    else parts[0] + sep + Join(parts[1..], sep)
  }

  /**
   * Python's `s.split(sep)` for a non-empty separator: cut at every
   * occurrence, scanning from the left.
   */
  function Split(s: string, sep: string): (r: seq<string>)
    requires |sep| > 0
    ensures |r| >= 1
    decreases |s|
  {
    match FindFrom(s, sep, 0)
    case None => [s]
    case Some(i) => [s[..i]] + Split(s[i + |sep|..], sep)
  }

  /**
   * `split` loses nothing: joining the pieces with the separator gives the
   * string back, and no piece contains the separator. For a separator that
   * can overlap itself these two facts allow more than one split (`"aaaa"`
   * by `"aa"`); `SplitLeftmost` fixes which one.
   */
  lemma SplitSpec(s: string, sep: string)
    requires |sep| > 0
    ensures Join(Split(s, sep), sep) == s
    ensures forall k, j :: 0 <= k < |Split(s, sep)| ==> !OccursAt(Split(s, sep)[k], sep, j)
  {
    SplitJoin(s, sep);
    SplitPiecesClean(s, sep);
  }

  /**
   * The cuts are made at leftmost occurrences: the first piece runs up to
   * the first occurrence of `sep` in `s` (or is all of `s` when there is
   * none), and the other pieces are the split of what follows that
   * occurrence.
   */
  lemma SplitLeftmost(s: string, sep: string)
    requires |sep| > 0
    ensures var parts := Split(s, sep);
            && |parts[0]| <= |s| && s[..|parts[0]|] == parts[0]
            && (forall j :: 0 <= j < |parts[0]| ==> !OccursAt(s, sep, j))
            && (|parts| == 1 <==> parts[0] == s)
            && (|parts| > 1 ==> OccursAt(s, sep, |parts[0]|)
                                && parts[1..] == Split(s[|parts[0]| + |sep|..], sep))
  {
    match FindFrom(s, sep, 0)
    case None =>
      assert Split(s, sep) == [s];
    case Some(i) =>
      var rest := Split(s[i + |sep|..], sep);
      assert Split(s, sep) == [s[..i]] + rest;
      assert ([s[..i]] + rest)[1..] == rest;
  }

  lemma {:induction false} SplitJoin(s: string, sep: string)
    requires |sep| > 0
    ensures Join(Split(s, sep), sep) == s
    decreases |s|
  {
    var f := FindFrom(s, sep, 0);
    if f.Some? {
      var i := f.value;
      var tail := s[i + |sep|..];
      SplitJoin(tail, sep);
      JoinCons(s[..i], Split(tail, sep), sep);
      CutAround(s, sep, i);
    }
  }

  /** Joining a first piece in front of at least one more. */
  lemma JoinCons(first: string, rest: seq<string>, sep: string)
    requires |rest| >= 1
    ensures Join([first] + rest, sep) == first + sep + Join(rest, sep)
  {
    assert ([first] + rest)[1..] == rest;
  }

  /** A string is what precedes an occurrence of `sep`, then `sep`, then what follows it. */
  lemma CutAround(s: string, sep: string, i: nat)
    requires OccursAt(s, sep, i)
    ensures s == s[..i] + sep + s[i + |sep|..]
  {
    assert s == s[..i] + s[i..i + |sep|] + s[i + |sep|..];
  }

  lemma {:induction false} SplitPiecesClean(s: string, sep: string)
    requires |sep| > 0
    ensures forall k, j :: 0 <= k < |Split(s, sep)| ==> !OccursAt(Split(s, sep)[k], sep, j)
    decreases |s|
  {
    match FindFrom(s, sep, 0)
    case None =>
    case Some(i) =>
      var tail := s[i + |sep|..];
      SplitPiecesClean(tail, sep);
      var rest := Split(tail, sep);
      var r := [s[..i]] + rest;
      assert Split(s, sep) == r;
      forall j | OccursAt(s[..i], sep, j)
        ensures false
      {
        assert s[..i][j..j + |sep|] == s[j..j + |sep|];
        assert OccursAt(s, sep, j);
      }
      forall k, j | 0 <= k < |r|
        ensures !OccursAt(r[k], sep, j)
      {
        if k > 0 {
          assert r[k] == rest[k - 1];
        }
      }
  }

  /** The fields of one two-column data line, as `[float(x) for x in line.split(delimiter)]`. */
  function ParseRow(line: string, delimiter: string, parse: string -> Option<real>): (r: Option<seq<real>>)
    requires |delimiter| > 0
    ensures r.Some? <==> AllParse(Split(line, delimiter), parse)
    ensures r.Some? ==>
              && |r.value| == |Split(line, delimiter)|
              && forall i :: 0 <= i < |r.value| ==> parse(Split(line, delimiter)[i]) == Some(r.value[i])
  {
    ParseAll(Split(line, delimiter), parse)
  }

  /**
   * What `read_xy_data` makes of the result `read` of `read_lines`: every
   * data line is split on `delimiter` and every field parsed; column 0 gives
   * the raw channels, column 1 the counts, further fields are ignored. It
   * never returns `None`: a field that does not parse (ValueError), a line
   * with a single field (IndexError), a missing marker (TypeError) and an
   * empty delimiter (ValueError) all raise.
   */
  function XYColumns(read: Option<seq<string>>, delimiter: string, parse: string -> Option<real>)
    : Outcome<Columns>
  {
    match read
    case None => Raised(TypeError)
    case Some(data) =>
      if |data| > 0 && |delimiter| == 0 then Raised(ValueError)
      else if exists i :: 0 <= i < |data| && ParseRow(data[i], delimiter, parse).None? then Raised(ValueError)
      else
        var rows := seq(|data|, i requires 0 <= i < |data| => ParseRow(data[i], delimiter, parse).value);
        if exists i :: 0 <= i < |rows| && |rows[i]| < 2 then Raised(IndexError)
        else
          Value(Columns(seq(|rows|, i requires 0 <= i < |rows| => rows[i][0]),
                        seq(|rows|, i requires 0 <= i < |rows| => rows[i][1])))
  }

  /**
   * What `read_xy_data` promises, for every result of `read_lines`: it never
   * returns `None`; when it returns, both columns have one entry per data
   * line, taken from the line's first and second field.
   */
  lemma XYColumnsSpec(read: Option<seq<string>>, delimiter: string, parse: string -> Option<real>)
    ensures read.None? ==> XYColumns(read, delimiter, parse) == Raised(TypeError)
    ensures !XYColumns(read, delimiter, parse).NoneReturned?
    ensures read.Some? && |delimiter| > 0
            && (exists i :: 0 <= i < |read.value| && ParseRow(read.value[i], delimiter, parse).None?)
            ==> XYColumns(read, delimiter, parse) == Raised(ValueError)
    ensures read.Some? && |delimiter| > 0
            && (forall i :: 0 <= i < |read.value| ==>
                  |Split(read.value[i], delimiter)| >= 2 && AllParse(Split(read.value[i], delimiter), parse))
            ==> XYColumns(read, delimiter, parse).Value?
    ensures var r := XYColumns(read, delimiter, parse);
            r.Value? ==> read.Some? && (|delimiter| > 0 || read.value == [])
    ensures var r := XYColumns(read, delimiter, parse);
            r.Value? ==>
              && |r.value.channels| == |read.value| && |r.value.counts| == |read.value|
              && forall i :: 0 <= i < |read.value| ==>
                   var fields := Split(read.value[i], delimiter);
                   && |fields| >= 2
                   && parse(fields[0]) == Some(r.value.channels[i])
                   && parse(fields[1]) == Some(r.value.counts[i])
  {
    if read.Some? && XYColumns(read, delimiter, parse).Value? {
      var data := read.value;
      var rows := seq(|data|, i requires 0 <= i < |data| => ParseRow(data[i], delimiter, parse).value);
      var cols := XYColumns(read, delimiter, parse).value;
      forall i | 0 <= i < |data|
        ensures var fields := Split(data[i], delimiter);
                && |fields| >= 2
                && parse(fields[0]) == Some(cols.channels[i])
                && parse(fields[1]) == Some(cols.counts[i])
      {
        assert ParseRow(data[i], delimiter, parse) == Some(rows[i]);
      }
    }
  }

  /**
   * `read_xy_data` on a file with the given lines: TypeError when a marker
   * is missing, never `None`, a value when every data line has at least two
   * fields that all parse, and one channel per count.
   */
  function ReadXY(lines: seq<string>, start: string, stop: string, delimiter: string,
                  lineEndings: Option<string>, parse: string -> Option<real>): (r: Outcome<Columns>)
    ensures start !in StripLines(lines, lineEndings) || stop !in StripLines(lines, lineEndings)
            ==> r == Raised(TypeError)
    ensures !r.NoneReturned?
    ensures var read := ReadLines(lines, start, stop, lineEndings);
            read.Some? && |delimiter| > 0
            && (forall i :: 0 <= i < |read.value| ==>
                  |Split(read.value[i], delimiter)| >= 2 && AllParse(Split(read.value[i], delimiter), parse))
            ==> r.Value?
    ensures r.Value? ==> |r.value.channels| == |r.value.counts|
  {
    XYColumnsSpec(ReadLines(lines, start, stop, lineEndings), delimiter, parse);
    XYColumns(ReadLines(lines, start, stop, lineEndings), delimiter, parse)
  }

  /** `read_xy_data` (read_data.py:101-121): `read_lines`, then the splitting loop. */
  method ReadXYData(lines: seq<string>, start: string, stop: string, delimiter: string,
                    lineEndings: Option<string>, parse: string -> Option<real>) returns (r: Outcome<Columns>)
    ensures r == ReadXY(lines, start, stop, delimiter, lineEndings, parse)
  {
    var read := ReadLines(lines, start, stop, lineEndings);
    r := XYLoop(read, delimiter, parse);
  }

  /**
   * The loop of `read_xy_data` (read_data.py:103-121): splits and parses
   * every data line, then takes the first and second field of each.
   */
  method XYLoop(read: Option<seq<string>>, delimiter: string, parse: string -> Option<real>)
    returns (r: Outcome<Columns>)
    ensures r == XYColumns(read, delimiter, parse)
  {
    if read.None? {
      return Raised(TypeError);
    }
    var data := read.value;
    var rows: seq<seq<real>> := [];
    var i := 0;
    while i < |data|
      invariant 0 <= i <= |data|
      invariant i > 0 ==> |delimiter| > 0
      invariant |rows| == i
      invariant forall k :: 0 <= k < i ==> ParseRow(data[k], delimiter, parse) == Some(rows[k])
    {
      if |delimiter| == 0 {
        return Raised(ValueError);
      }
      var row := ParseAll(Split(data[i], delimiter), parse);
      if row.None? {
        assert ParseRow(data[i], delimiter, parse).None?;
        return Raised(ValueError);
      }
      rows := rows + [row.value];
      i := i + 1;
    }
    assert !exists k :: 0 <= k < |data| && ParseRow(data[k], delimiter, parse).None?;
    assert rows == seq(|data|, k requires 0 <= k < |data| => ParseRow(data[k], delimiter, parse).value);
    if exists k :: 0 <= k < |rows| && |rows[k]| < 2 {
      return Raised(IndexError);
    }
    var rawChannels := seq(|rows|, k requires 0 <= k < |rows| => rows[k][0]);
    var counts := seq(|rows|, k requires 0 <= k < |rows| => rows[k][1]);
    r := Value(Columns(rawChannels, counts));
  }
}
