/**
 * Saving a spectrum dictionary and reading it back, as in
 * helper_files/saving_json.py: numpy arrays become lists on the way out,
 * and the values of eight known keys become arrays again on the way in.
 * The output path is derived from the spectrum's `filepath`. Writing and
 * reading the file and the JSON text itself are not modelled: the
 * dictionary that would be written is the result of saving, and the
 * dictionary that was parsed is the input of loading.
 */
module SavingJson {
  import opened Outcomes
  import ReadData

  /** One element of a list or array, or a plain value. */
  datatype Item = Real(x: real) | Str(s: string) | Null

  /** A dictionary value, told apart by `type(value) == np.ndarray`. */
  datatype Field =
    | NdArray(elems: seq<Item>)  // a one-dimensional numpy array
    | ZeroDimArray(item: Item)   // a numpy array of no dimension, as `np.array(None)` or `np.array(2.5)`
    | List(elems: seq<Item>)     // a Python list
    | Atom(item: Item)           // a number, a string or `None`

  predicate IsNdarray(f: Field)
  {
    f.NdArray? || f.ZeroDimArray?
  }

  /** `a.tolist()` on an array; anything else is kept as it is. */
  function ToList(f: Field): (r: Field)
    ensures !IsNdarray(r)
    ensures f.NdArray? ==> r == List(f.elems)
    ensures f.ZeroDimArray? ==> r == Atom(f.item)
    ensures !IsNdarray(f) ==> r == f
  {
    match f
    case NdArray(es) => List(es)
    case ZeroDimArray(x) => Atom(x)
    case _ => f
  }

  /** `np.array(value)`: a list becomes an array of its elements, a plain value an array of no dimension. */
  function AsArray(f: Field): (r: Field)
    ensures IsNdarray(r)
    ensures f.List? ==> r == NdArray(f.elems)
    ensures IsNdarray(f) ==> r == f
    ensures f.Atom? ==> r == ZeroDimArray(f.item)
  {
    match f
    case List(es) => NdArray(es)
    case Atom(x) => ZeroDimArray(x)
    case _ => f
  }

  /** The keys whose values are turned back into arrays on loading. */
  const NdarrayKeys: set<string> :=
    {"channel", "intensity", "counts", "kev_calibrated", "peaks_channel", "fit_params", "fit_cov", "intensity_fit"}

  /** The dictionary `save_spectrum_to_json` writes: the same keys, every array as a list. */
  function Saved(s: map<string, Field>): (r: map<string, Field>)
    ensures r.Keys == s.Keys
    ensures forall k :: k in r ==> !IsNdarray(r[k])
    ensures forall k :: k in s && s[k].NdArray? ==> r[k] == List(s[k].elems)
    ensures forall k :: k in s && !IsNdarray(s[k]) ==> r[k] == s[k]
  {
    map k | k in s :: ToList(s[k])
  }

  /** The dictionary `read_saved_spectrum_from_json` returns: the listed keys' values as arrays, the rest untouched. */
  function Loaded(parsed: map<string, Field>): (r: map<string, Field>)
    ensures r.Keys == parsed.Keys
    ensures forall k :: k in r && k in NdarrayKeys ==> IsNdarray(r[k])
    ensures forall k :: k in parsed && k in NdarrayKeys && parsed[k].List? ==> r[k] == NdArray(parsed[k].elems)
    ensures forall k :: k in parsed && k !in NdarrayKeys ==> r[k] == parsed[k]
  {
    map k | k in parsed :: if k in NdarrayKeys then AsArray(parsed[k]) else parsed[k]
  }

  /** The path a spectrum is saved to, and the dictionary written there. */
  datatype SavedFile = SavedFile(path: string, contents: map<string, Field>)

  predicate IsText(f: Field)
  {
    f.Atom? && f.item.Str?
  }

  /**
   * `save_spectrum_to_json`: converts the dictionary key by key (lines
   * 20-25), then derives the output path from `s['filepath']` (line 27).
   * A missing `filepath` raises KeyError; one that is not a string has no
   * `split` and raises AttributeError.
   */
  method SaveSpectrum(s: map<string, Field>) returns (r: Outcome<SavedFile>)
    ensures "filepath" !in s ==> r == Raised(KeyError)
    ensures "filepath" in s && !IsText(s["filepath"]) ==> r == Raised(AttributeError)
    ensures "filepath" in s && IsText(s["filepath"]) ==>
              r == Value(SavedFile(OutputName(s["filepath"].item.s), Saved(s)))
  {
    var sList: map<string, Field> := map[];
    var todo := s.Keys;
    while todo != {}
      invariant todo <= s.Keys
      invariant sList.Keys == s.Keys - todo
      invariant forall k :: k in sList ==> sList[k] == ToList(s[k])
      decreases todo
    {
      var key :| key in todo;
      if IsNdarray(s[key]) {
        sList := sList[key := ToList(s[key])];
      } else {
        sList := sList[key := s[key]];
      }
      todo := todo - {key};
    }
    assert sList == Saved(s);
    if "filepath" !in s {
      return Raised(KeyError);
    }
    var filepath := s["filepath"];
    if !IsText(filepath) {
      return Raised(AttributeError);
    }
    r := Value(SavedFile(OutputName(filepath.item.s), sList));
  }

  /**
   * `read_saved_spectrum_from_json` after `json.load`: overwrites the
   * value of each listed key with an array of it (lines 65-67).
   */
  method LoadSpectrum(parsed: map<string, Field>) returns (s: map<string, Field>)
    ensures s == Loaded(parsed)
  {
    s := parsed;
    var todo := parsed.Keys;
    while todo != {}
      invariant todo <= parsed.Keys
      invariant s.Keys == parsed.Keys
      invariant forall k :: k in todo ==> s[k] == parsed[k]
      invariant forall k :: k in s && k !in todo ==> s[k] == Loaded(parsed)[k]
      decreases todo
    {
      var key :| key in todo;
      if key in NdarrayKeys {
        s := s[key := AsArray(s[key])];
      }
      todo := todo - {key};
    }
  }

  /**
   * Saving then loading gives back every array stored under a listed key,
   * with the same elements in the same order, and keeps the key set.
   */
  lemma ListedArraysRoundTrip(s: map<string, Field>, k: string)
    requires k in s && k in NdarrayKeys && IsNdarray(s[k])
    ensures Loaded(Saved(s)).Keys == s.Keys
    ensures Loaded(Saved(s))[k] == s[k]
  {
  }

  /** An array stored under any other key, such as `peaks_keV`, comes back as a list of the same elements. */
  lemma UnlistedArraysComeBackAsLists(s: map<string, Field>, k: string)
    requires k in s && k !in NdarrayKeys && s[k].NdArray?
    ensures Loaded(Saved(s))[k] == List(s[k].elems)
  {
  }

  /** A value that is not an array and is stored under an unlisted key survives the round trip unchanged. */
  lemma UnlistedValuesRoundTrip(s: map<string, Field>, k: string)
    requires k in s && k !in NdarrayKeys && !IsNdarray(s[k])
    ensures Loaded(Saved(s))[k] == s[k]
  {
  }

  /** Loading twice is loading once, and so is saving twice. */
  lemma ConversionsIdempotent(s: map<string, Field>)
    ensures Loaded(Loaded(s)) == Loaded(s)
    ensures Saved(Saved(s)) == Saved(s)
  {
  }

  /** Python's `p.split(c)[-1]`: what follows the last `c`, or all of `p`. */
  function LastPart(p: string, c: char): string
  {
    var parts := ReadData.Split(p, [c]);
    parts[|parts| - 1]
  }

  /** Python's `q.split(c)[0]`: what precedes the first `c`, or all of `q`. */
  function FirstPart(q: string, c: char): string
  {
    ReadData.Split(q, [c])[0]
  }

  /** A one-character separator occurs exactly where that character is. */
  lemma OccursAtChar(s: string, c: char, j: int)
    ensures ReadData.OccursAt(s, [c], j) <==> 0 <= j < |s| && s[j] == c
  {
    if 0 <= j < |s| {
      assert s[j..j + 1] == [s[j]];
    }
  }

  /**
   * The last part is a suffix of `p` without `c`, preceded by `c` when it
   * is not the whole of `p`; with no `c` in `p` it is `p`.
   */
  lemma {:induction false} LastPartSpec(p: string, c: char)
    ensures var r := LastPart(p, c);
            && |r| <= |p| && p[|p| - |r|..] == r && c !in r
            && (|r| < |p| ==> p[|p| - |r| - 1] == c)
            && (c !in p ==> r == p)
    decreases |p|
  {
    var r := LastPart(p, c);
    match ReadData.FindFrom(p, [c], 0)
    case None =>
      forall j | 0 <= j < |p|
        ensures p[j] != c
      {
        OccursAtChar(p, c, j);
      }
    case Some(i) =>
      OccursAtChar(p, c, i);
      var tail := p[i + 1..];
      LastPartSpec(tail, c);
      var rest := ReadData.Split(tail, [c]);
      assert ReadData.Split(p, [c]) == [p[..i]] + rest;
      assert r == LastPart(tail, c);
      assert p[|p| - |r|..] == tail[|tail| - |r|..];
      if |r| == |tail| {
        assert p[|p| - |r| - 1] == p[i];
      } else {
        assert p[|p| - |r| - 1] == tail[|tail| - |r| - 1];
      }
  }

  /**
   * The first part is a prefix of `q` without `c`, followed by `c` when it
   * is not the whole of `q`; with no `c` in `q` it is `q`.
   */
  lemma FirstPartSpec(q: string, c: char)
    ensures var r := FirstPart(q, c);
            && |r| <= |q| && q[..|r|] == r && c !in r
            && (|r| < |q| ==> q[|r|] == c)
            && (c !in q ==> r == q)
  {
    match ReadData.FindFrom(q, [c], 0)
    case None =>
      forall j | 0 <= j < |q|
        ensures q[j] != c
      {
        OccursAtChar(q, c, j);
      }
    case Some(i) =>
      OccursAtChar(q, c, i);
      forall j | 0 <= j < i
        ensures q[j] != c
      {
        OccursAtChar(q, c, j);
      }
  }

  /** The output path of line 27. */
  function OutputName(filepath: string): string
  {
    "Lab3_data_calibrated/" + FirstPart(LastPart(filepath, '/'), '.') + "_calibrated.json"
  }

  /**
   * The stem in the output path is the piece of `filepath` that starts
   * after its last '/' (or at the start) and ends before the first '.'
   * after that (or at the end): any such piece is the one used.
   */
  lemma OutputNameStem(filepath: string, a: nat, b: nat)
    requires a <= b <= |filepath|
    requires '/' !in filepath[a..] && (a > 0 ==> filepath[a - 1] == '/')
    requires '.' !in filepath[a..b] && (b < |filepath| ==> filepath[b] == '.')
    ensures OutputName(filepath) == "Lab3_data_calibrated/" + filepath[a..b] + "_calibrated.json"
  {
    var last := LastPart(filepath, '/');
    LastPartSpec(filepath, '/');
    assert last == filepath[a..];
    var stem := FirstPart(last, '.');
    FirstPartSpec(last, '.');
    assert stem == filepath[a..b];
  }
}
