/**
 * The sum-of-Gaussians model and the initial-guess packing of
 * helper_files/gaussian_fitting.py. The single-peak model
 * `gaussian(x, amp, mu, std)` is a parameter `g`: only how parameters are
 * grouped, indexed and summed is modelled, not the exponential itself.
 */
module GaussianFitting {
  import opened Outcomes

  /** The single-peak model evaluated at one point: `g(x, amp, mu, std)`. */
  type Gaussian = (real, real, real, real) -> real

  /** The sum of the first `n` peaks of a flat `[amp, mu, std, ...]` parameter list, at the point `xj`. */
  function TripleSum(g: Gaussian, xj: real, args: seq<real>, n: nat): real
    requires 3 * n <= |args|
  {
    if n == 0 then 0.0
    else TripleSum(g, xj, args, n - 1) + g(xj, args[3 * (n - 1)], args[3 * (n - 1) + 1], args[3 * (n - 1) + 2])
  }

  /**
   * What `n_gaussians(x, *args)` computes: at every point, the sum over the
   * `len(args) / 3` (rounded down) complete triples; one or two trailing
   * parameters are ignored.
   */
  function SumOfGaussians(g: Gaussian, x: seq<real>, args: seq<real>): (y: seq<real>)
    ensures |y| == |x|
    ensures |args| < 3 ==> forall j :: 0 <= j < |x| ==> y[j] == 0.0
  {
    seq(|x|, j requires 0 <= j < |x| => TripleSum(g, x[j], args, |args| / 3))
  }

  /** With three to five parameters the model is exactly one peak. */
  lemma OnePeak(g: Gaussian, x: seq<real>, args: seq<real>)
    requires 3 <= |args| < 6
    ensures forall j :: 0 <= j < |x| ==> SumOfGaussians(g, x, args)[j] == g(x[j], args[0], args[1], args[2])
  {
    forall j | 0 <= j < |x|
      ensures SumOfGaussians(g, x, args)[j] == g(x[j], args[0], args[1], args[2])
    {
      assert TripleSum(g, x[j], args, 0) == 0.0;
    }
  }

  /** `n_gaussians`: starts from zeros and adds one peak at a time over the whole array (lines 50-54). */
  method NGaussians(g: Gaussian, x: seq<real>, args: seq<real>) returns (y: seq<real>)
    ensures y == SumOfGaussians(g, x, args)
  {
    var n := |args| / 3;
    var acc := new real[|x|](_ => 0.0);
    var i := 0;
    while i < n
      invariant 0 <= i <= n
      invariant forall j :: 0 <= j < acc.Length ==> acc[j] == TripleSum(g, x[j], args, i)
    {
      var amp, mu, std := args[3 * i], args[3 * i + 1], args[3 * i + 2];
      var j := 0;
      while j < acc.Length
        invariant 0 <= j <= acc.Length
        invariant forall k :: 0 <= k < j ==> acc[k] == TripleSum(g, x[k], args, i + 1)
        invariant forall k :: j <= k < acc.Length ==> acc[k] == TripleSum(g, x[k], args, i)
      {
        acc[j] := acc[j] + g(x[j], amp, mu, std);
        j := j + 1;
      }
      i := i + 1;
    }
    y := acc[..];
  }

  /** The sum of the first `n` peaks depends only on the first `3 * n` parameters. */
  lemma {:induction false} TripleSumPrefix(g: Gaussian, xj: real, a: seq<real>, b: seq<real>, n: nat)
    requires 3 * n <= |a| && 3 * n <= |b| && a[..3 * n] == b[..3 * n]
    ensures TripleSum(g, xj, a, n) == TripleSum(g, xj, b, n)
  {
    if n > 0 {
      assert a[..3 * (n - 1)] == a[..3 * n][..3 * (n - 1)];
      assert b[..3 * (n - 1)] == b[..3 * n][..3 * (n - 1)];
      TripleSumPrefix(g, xj, a, b, n - 1);
      assert a[3 * (n - 1)] == a[..3 * n][3 * (n - 1)];
      assert a[3 * (n - 1) + 1] == a[..3 * n][3 * (n - 1) + 1];
      assert a[3 * (n - 1) + 2] == a[..3 * n][3 * (n - 1) + 2];
    }
  }

  /** Trailing parameters that do not make a complete triple change nothing. */
  lemma IncompleteTripleIgnored(g: Gaussian, x: seq<real>, args: seq<real>)
    ensures SumOfGaussians(g, x, args) == SumOfGaussians(g, x, args[..3 * (|args| / 3)])
  {
    var n := |args| / 3;
    var whole := args[..3 * n];
    assert |whole| / 3 == n;
    forall j | 0 <= j < |x|
      ensures SumOfGaussians(g, x, args)[j] == SumOfGaussians(g, x, whole)[j]
    {
      assert whole[..3 * n] == args[..3 * n];
      TripleSumPrefix(g, x[j], args, whole, n);
    }
  }

  /**
   * The model is additive in its peaks: the parameters of two groups of
   * peaks, concatenated, give the sum of the two groups' curves.
   */
  lemma {:induction false} TripleSumConcat(g: Gaussian, xj: real, a: seq<real>, b: seq<real>, m: nat)
    requires |a| % 3 == 0 && 3 * m <= |b|
    ensures 3 * (|a| / 3 + m) <= |a + b|
    ensures TripleSum(g, xj, a + b, |a| / 3 + m) == TripleSum(g, xj, a, |a| / 3) + TripleSum(g, xj, b, m)
  {
    var n := |a| / 3;
    if m == 0 {
      assert (a + b)[..3 * n] == a[..3 * n];
      TripleSumPrefix(g, xj, a + b, a, n);
    } else {
      TripleSumConcat(g, xj, a, b, m - 1);
      var k := 3 * (n + m - 1);
      assert (a + b)[k] == b[3 * (m - 1)];
      assert (a + b)[k + 1] == b[3 * (m - 1) + 1];
      assert (a + b)[k + 2] == b[3 * (m - 1) + 2];
    }
  }

  lemma SumOfGaussiansConcat(g: Gaussian, x: seq<real>, a: seq<real>, b: seq<real>)
    requires |a| % 3 == 0
    ensures forall j :: 0 <= j < |x| ==>
              SumOfGaussians(g, x, a + b)[j] == SumOfGaussians(g, x, a)[j] + SumOfGaussians(g, x, b)[j]
  {
    assert |a + b| / 3 == |a| / 3 + |b| / 3;
    forall j | 0 <= j < |x|
      ensures SumOfGaussians(g, x, a + b)[j] == SumOfGaussians(g, x, a)[j] + SumOfGaussians(g, x, b)[j]
    {
      TripleSumConcat(g, x[j], a, b, |b| / 3);
    }
  }

  /**
   * `guessed_std` or `guessed_amp` as passed: a single number, or one value
   * per peak.
   */
  datatype Guess = Scalar(v: real) | PerPeak(vs: seq<real>)

  /** Lines 92-95: the default scalar 1 becomes one 1 per guessed peak; anything else is kept as given. */
  function Broadcast(guess: Guess, k: nat): (r: Guess)
    ensures guess == Scalar(1.0) ==> r == PerPeak(seq(k, _ => 1.0))
    ensures guess != Scalar(1.0) ==> r == guess
  {
    if guess == Scalar(1.0) then PerPeak(seq(k, _ => 1.0)) else guess
  }

  /** `guess[i]`: a scalar cannot be indexed (TypeError), a short list runs out (IndexError). */
  function At(guess: Guess, i: nat): (r: Outcome<real>)
    ensures r.Value? <==> guess.PerPeak? && i < |guess.vs|
  {
    match guess
    case Scalar(_) => Raised(TypeError)
    case PerPeak(vs) => if i < |vs| then Value(vs[i]) else Raised(IndexError)
  }

  /** After broadcasting, `guess` has a value for each of the `k` peaks. */
  predicate Covers(guess: Guess, k: nat)
  {
    guess.PerPeak? && |guess.vs| >= k
  }

  /** The flat `[amp_0, mu_0, std_0, amp_1, ...]` list of the first `k` peaks. */
  function Interleave(amp: seq<real>, peaks: seq<real>, std: seq<real>, k: nat): (r: seq<real>)
    requires k <= |amp| && k <= |peaks| && k <= |std|
    ensures |r| == 3 * k
    ensures forall i :: 0 <= i < k ==> r[3 * i] == amp[i] && r[3 * i + 1] == peaks[i] && r[3 * i + 2] == std[i]
  {
    if k == 0 then []
    else Interleave(amp, peaks, std, k - 1) + [amp[k - 1], peaks[k - 1], std[k - 1]]
  }

  /**
   * The initial-guess loop of `fit_n_peaks_to_gaussian` (lines 92-102):
   * broadcasts the default guesses, then packs one `[amp, peak, std]`
   * triple per guessed peak, indexing the amplitude guess before the
   * width guess. A guess that is still a scalar raises TypeError when
   * indexed, and a list that runs out raises IndexError. With no guessed
   * peak the list is never assigned, and reading it raises
   * UnboundLocalError, a subclass of NameError.
   */
  method InitialGuess(peaks: seq<real>, std: Guess, amp: Guess) returns (r: Outcome<seq<real>>)
    ensures var k := |peaks|;
            r.Value? <==> k >= 1 && Covers(Broadcast(std, k), k) && Covers(Broadcast(amp, k), k)
    ensures |peaks| == 0 ==> r == Raised(NameError)
    ensures var k := |peaks|;
            var amps, stds := Broadcast(amp, k), Broadcast(std, k);
            k >= 1 && !r.Value? ==>
              r == Raised(if amps.Scalar? || (stds.Scalar? && |amps.vs| > 0) then TypeError else IndexError)
    ensures r.Value? ==>
              var k := |peaks|;
              r.value == Interleave(Broadcast(amp, k).vs, peaks, Broadcast(std, k).vs, k)
  {
    var k := |peaks|;
    var stds := Broadcast(std, k);
    var amps := Broadcast(amp, k);
    var initVals: Option<seq<real>> := None;
    for i := 0 to k
      invariant i > 0 ==> Covers(stds, i) && Covers(amps, i)
      invariant initVals == if i == 0 then None else Some(Interleave(amps.vs, peaks, stds.vs, i))
    {
      var a := At(amps, i);
      if a.Raised? {
        return Raised(a.error);
      }
      var s := At(stds, i);
      if s.Raised? {
        return Raised(s.error);
      }
      assert a.value == amps.vs[i] && s.value == stds.vs[i];
      if i == 0 {
        initVals := Some([a.value, peaks[i], s.value]);
        assert Interleave(amps.vs, peaks, stds.vs, 1) == [] + [amps.vs[0], peaks[0], stds.vs[0]];
        assert initVals.value == Interleave(amps.vs, peaks, stds.vs, i + 1);
      } else {
        initVals := Some(initVals.value + [a.value, peaks[i], s.value]);
        assert initVals.value == Interleave(amps.vs, peaks, stds.vs, i + 1);
      }
    }
    if initVals.None? {
      return Raised(NameError);
    }
    r := Value(initVals.value);
  }

  /** The sum of `g` over the first `k` guessed peaks, peak by peak. */
  function PeakSum(g: Gaussian, xj: real, amp: seq<real>, peaks: seq<real>, std: seq<real>, k: nat): real
    requires k <= |amp| && k <= |peaks| && k <= |std|
  {
    if k == 0 then 0.0
    else PeakSum(g, xj, amp, peaks, std, k - 1) + g(xj, amp[k - 1], peaks[k - 1], std[k - 1])
  }

  /**
   * The packed guess is read back by the model as intended: triple `i` of
   * the flat list is guessed peak `i`, so the model evaluated at the
   * initial guess is the sum of the guessed peaks.
   */
  lemma {:induction false} PackedGuessIsPeakSum(g: Gaussian, xj: real, amp: seq<real>, peaks: seq<real>,
                                                std: seq<real>, k: nat)
    requires k <= |amp| && k <= |peaks| && k <= |std|
    ensures TripleSum(g, xj, Interleave(amp, peaks, std, k), k) == PeakSum(g, xj, amp, peaks, std, k)
  {
    if k > 0 {
      var shorter := Interleave(amp, peaks, std, k - 1);
      var packed := Interleave(amp, peaks, std, k);
      assert packed[..3 * (k - 1)] == shorter[..3 * (k - 1)];
      TripleSumPrefix(g, xj, packed, shorter, k - 1);
      PackedGuessIsPeakSum(g, xj, amp, peaks, std, k - 1);
    }
  }
}
