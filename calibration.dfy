/**
 * The two-peak linear calibration of helper_files/calibration.py: a
 * channel c is mapped to the energy (c - offset) * dispersion in keV.
 */
module Calibration {

  /** The energy in keV of a channel under a calibration. */
  function ChannelToKeV(channel: real, dispersion: real, offset: real): real
  {
    (channel - offset) * dispersion
  }

  /**
   * `calibrate_channel_width_two_peaks`: from the first two peak channels
   * and their known energies, the dispersion (keV per channel) and the
   * offset (the channel of zero energy), in that order. Later entries of
   * either list are ignored. The code divides by the channel distance and
   * then by the dispersion without a guard, so two equal channels or two
   * equal energies are excluded by the precondition.
   */
  function CalibrateTwoPeaks(peaksChannel: seq<real>, peaksKeV: seq<real>): (r: (real, real))
    requires |peaksChannel| >= 2 && |peaksKeV| >= 2
    requires peaksChannel[1] != peaksChannel[0]
    requires peaksKeV[1] != peaksKeV[0]
    ensures r.0 != 0.0
    ensures r.0 * (peaksChannel[1] - peaksChannel[0]) == peaksKeV[1] - peaksKeV[0]
    ensures ChannelToKeV(peaksChannel[0], r.0, r.1) == peaksKeV[0]
    ensures ChannelToKeV(peaksChannel[1], r.0, r.1) == peaksKeV[1]
  {
    var channelDistance := peaksChannel[1] - peaksChannel[0];
    var kevDistance := peaksKeV[1] - peaksKeV[0];
    var dispersion := kevDistance / channelDistance;
    assert dispersion * channelDistance == kevDistance;
    var offset := peaksChannel[0] - peaksKeV[0] / dispersion;
    assert (peaksChannel[0] - offset) * dispersion == peaksKeV[0];
    assert (peaksChannel[1] - offset) * dispersion
        == (peaksChannel[1] - peaksChannel[0]) * dispersion + (peaksChannel[0] - offset) * dispersion;
    (dispersion, offset)
  }

  /**
   * The calibration is the only linear map that sends both reference
   * channels to their energies: any dispersion and offset that do so are
   * the ones computed.
   */
  lemma CalibrationUnique(peaksChannel: seq<real>, peaksKeV: seq<real>, dispersion: real, offset: real)
    requires |peaksChannel| >= 2 && |peaksKeV| >= 2
    requires peaksChannel[1] != peaksChannel[0]
    requires peaksKeV[1] != peaksKeV[0]
    requires ChannelToKeV(peaksChannel[0], dispersion, offset) == peaksKeV[0]
    requires ChannelToKeV(peaksChannel[1], dispersion, offset) == peaksKeV[1]
    ensures CalibrateTwoPeaks(peaksChannel, peaksKeV) == (dispersion, offset)
  {
    var (d, o) := CalibrateTwoPeaks(peaksChannel, peaksKeV);
    var c0, c1 := peaksChannel[0], peaksChannel[1];
    // Both maps send the two channels the same distance apart in energy.
    assert dispersion * (c1 - c0) == peaksKeV[1] - peaksKeV[0] by {
      assert (c1 - offset) * dispersion - (c0 - offset) * dispersion == (c1 - c0) * dispersion;
    }
    assert d * (c1 - c0) == dispersion * (c1 - c0);
    MultiplyCancel(d, dispersion, c1 - c0);
    assert (c0 - o) * d == (c0 - offset) * d;
    MultiplyCancel(c0 - o, c0 - offset, d);
  }

  lemma MultiplyCancel(a: real, b: real, c: real)
    requires c != 0.0 && a * c == b * c
    ensures a == b
  {
    assert (a - b) * c == 0.0;
  }

  /**
   * Recovering a known calibration: peaks placed at the channels a
   * calibration assigns to two different energies calibrate back to exactly
   * that dispersion and offset.
   */
  lemma CalibrationRecovers(dispersion: real, offset: real, e0: real, e1: real)
    requires dispersion != 0.0 && e0 != e1
    ensures var c0, c1 := e0 / dispersion + offset, e1 / dispersion + offset;
            && c0 != c1
            && CalibrateTwoPeaks([c0, c1], [e0, e1]) == (dispersion, offset)
  {
    var c0, c1 := e0 / dispersion + offset, e1 / dispersion + offset;
    assert ChannelToKeV(c0, dispersion, offset) == e0;
    assert ChannelToKeV(c1, dispersion, offset) == e1;
    assert c0 != c1;
    CalibrationUnique([c0, c1], [e0, e1], dispersion, offset);
  }
}
