/** The audio-duration scorer (discrete_speech_metrics/audioduration.py): the mismatch between
    the durations of the reference and the generated audio, as a percentage of the reference
    duration. Durations are sample counts divided by the sampling rate, in exact reals. */
module Duration {
  import opened Common

  /** `AudioDuration(sr)`: the constructor only stores the sampling rate. */
  datatype AudioDuration = AudioDuration(sr: int)

  /** The sampling rate inference.py constructs its duration scorer with. */
  const PipelineRate: int := 16000

  /** The intended measure on sample counts: `|lenRef - lenGen| / lenRef * 100`. */
  function RelativeErrorPct(lenRef: nat, lenGen: nat): real
    requires lenRef > 0
  {
    Abs(lenRef as real - lenGen as real) / (lenRef as real) * 100.0
  }

  /** `AudioDuration.score`: both durations divide by `sr`, which raises ZeroDivisionError when
      it is zero; a zero reference duration gives 0.0 instead of a division. */
  function Score(scorer: AudioDuration, refAudio: Wave, genAudio: Wave): (r: Outcome<real>)
    ensures r.Raised? <==> scorer.sr == 0
    ensures r.Raised? ==> r.error == ZeroDivisionError
    ensures scorer.sr != 0 && |refAudio| == 0 ==> r == Ok(0.0)
  {
    if scorer.sr == 0 then Raised(ZeroDivisionError)
    else
      var refDurationSec := |refAudio| as real / scorer.sr as real;
      var genDurationSec := |genAudio| as real / scorer.sr as real;
      var errorSec := Abs(refDurationSec - genDurationSec);
      Ok(if refDurationSec != 0.0 then errorSec / refDurationSec * 100.0 else 0.0)
  }

  /** With a positive rate the rate cancels: the score is the relative mismatch of the sample
      counts. */
  lemma ScoreIsRelativeError(scorer: AudioDuration, refAudio: Wave, genAudio: Wave)
    requires scorer.sr > 0 && |refAudio| > 0
    ensures Score(scorer, refAudio, genAudio) == Ok(RelativeErrorPct(|refAudio|, |genAudio|))
  {
    RateCancels(|refAudio| as real, |genAudio| as real, scorer.sr as real);
  }

  /** Dividing both durations by a positive rate does not change their relative mismatch. */
  lemma RateCancels(a: real, b: real, s: real)
    requires a > 0.0 && s > 0.0
    ensures a / s != 0.0
    ensures Abs(a / s - b / s) / (a / s) * 100.0 == Abs(a - b) / a * 100.0
  {
    var d := a - b;
    assert a / s - b / s == d / s;
    assert Abs(d / s) == Abs(d) / s;
    assert (Abs(d) / s) / (a / s) == Abs(d) / a;
  }

  /** The score reads only the two lengths and the rate, never a sample value. */
  lemma ScoreDependsOnlyOnLengths(scorer: AudioDuration, r1: Wave, g1: Wave, r2: Wave, g2: Wave)
    requires |r1| == |r2| && |g1| == |g2|
    ensures Score(scorer, r1, g1) == Score(scorer, r2, g2)
  {
  }

  /** Equal lengths give no error, whatever the (non-zero) rate. */
  lemma EqualLengthsScoreZero(scorer: AudioDuration, refAudio: Wave, genAudio: Wave)
    requires scorer.sr != 0 && |refAudio| == |genAudio|
    ensures Score(scorer, refAudio, genAudio) == Ok(0.0)
  {
  }

  /** With a positive rate the score is never negative. */
  lemma ScoreNonNegative(scorer: AudioDuration, refAudio: Wave, genAudio: Wave)
    requires scorer.sr > 0
    ensures Score(scorer, refAudio, genAudio).Ok?
    ensures Score(scorer, refAudio, genAudio).value >= 0.0
  {
    if |refAudio| > 0 {
      ScoreIsRelativeError(scorer, refAudio, genAudio);
      var n := |refAudio| as real;
      var e := Abs(n - |genAudio| as real);
      assert e / n >= 0.0;
    }
  }

  /** One second of reference audio against 1.2 seconds of generated audio at 16 kHz is a
      20 percent duration error. */
  lemma ScoreExample(refAudio: Wave, genAudio: Wave)
    requires |refAudio| == 16000 && |genAudio| == 19200
    ensures Score(AudioDuration(PipelineRate), refAudio, genAudio) == Ok(20.0)
  {
    ScoreIsRelativeError(AudioDuration(PipelineRate), refAudio, genAudio);
  }
}
