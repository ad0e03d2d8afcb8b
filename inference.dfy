/** The metric pipeline (inference.py, `process_wav_files`): match the `.wav` names of the
    generated and the reference directory, walk them in sorted order, skip a pair with an empty
    waveform, zero-pad the shorter waveform, run the nine scorers under one `try` per pair,
    collect each score in its own list, and summarise every list. */
module Inference {
  import opened Common
  import opened Sorting
  import Stats
  import Duration

  // ---------------------------------------------------------------------------------------
  // Matching (lines 27-31)

  /** `{f for f in os.listdir(d) if f.endswith(".wav")}`. */
  ghost function WavNames(listing: seq<string>): set<string>
  {
    set f | f in listing && EndsWithWav(f)
  }

  /** The entries of `genListing` that end in `.wav` and also appear in `refListing`. */
  function CommonWav(genListing: seq<string>, refListing: seq<string>): (r: seq<string>)
    ensures forall f :: f in r <==> f in genListing && EndsWithWav(f) && f in refListing
  {
    if genListing == [] then []
    else
      var init, f := genListing[..|genListing| - 1], genListing[|genListing| - 1];
      assert genListing == init + [f];
      CommonWav(init, refListing) + (if EndsWithWav(f) && f in refListing then [f] else [])
  }

  /** `sorted(gen_files & ref_files)`: each `.wav` name present in both listings, once, in
      ascending order. */
  function MatchedNames(genListing: seq<string>, refListing: seq<string>): (names: seq<string>)
    ensures StrictlyAscending(names)
    ensures forall f :: f in names <==> f in WavNames(genListing) * WavNames(refListing)
  {
    SortDistinct(CommonWav(genListing, refListing))
  }

  // ---------------------------------------------------------------------------------------
  // Padding (lines 43-45)

  function Max(a: nat, b: nat): nat
  {
    if a >= b then a else b
  }

  /** `np.pad(w, (0, n - len(w)), 'constant')`: `w` followed by zeros up to length `n`. */
  function Pad(w: Wave, n: nat): (r: Wave)
    requires |w| <= n
    ensures |r| == n
    ensures r[..|w|] == w
    ensures forall i :: |w| <= i < n ==> r[i] == 0.0
  {
    w + seq(n - |w|, _ => 0.0)
  }

  /** Padding both waveforms to the longer length equalises them, keeps each original as a
      prefix, adds only zeros, never shortens, and leaves the longer one as it was. */
  lemma PadToLonger(refAudio: Wave, genAudio: Wave)
    ensures var n := Max(|refAudio|, |genAudio|);
      && |Pad(refAudio, n)| == |Pad(genAudio, n)| == n
      && n >= |refAudio| && n >= |genAudio|
      && Pad(refAudio, n)[..|refAudio|] == refAudio
      && Pad(genAudio, n)[..|genAudio|] == genAudio
      && (forall i :: |refAudio| <= i < n ==> Pad(refAudio, n)[i] == 0.0)
      && (forall i :: |genAudio| <= i < n ==> Pad(genAudio, n)[i] == 0.0)
      && (|refAudio| >= |genAudio| ==> Pad(refAudio, n) == refAudio)
      && (|genAudio| >= |refAudio| ==> Pad(genAudio, n) == genAudio)
  {
    var n := Max(|refAudio|, |genAudio|);
    assert |refAudio| == n ==> Pad(refAudio, n) == Pad(refAudio, n)[..|refAudio|];
    assert |genAudio| == n ==> Pad(genAudio, n) == Pad(genAudio, n)[..|genAudio|];
  }

  // ---------------------------------------------------------------------------------------
  // Collaborators

  /** The scorers constructed at lines 12-19, each a call that returns a value or raises.
      SpeechBERTScore returns a triple whose first component, the precision, is kept
      (line 48); the others return one number. */
  datatype Battery = Battery(
    bertScore: (Wave, Wave) -> Outcome<(real, real, real)>,
    bleuScore: (Wave, Wave) -> Outcome<real>,
    tokenDistance: (Wave, Wave) -> Outcome<real>,
    mcdScore: (Wave, Wave) -> Outcome<real>,
    logF0RmseScore: (Wave, Wave) -> Outcome<real>,
    utmosScore: Wave -> Outcome<real>,
    dnsmosScore: Wave -> Outcome<real>,
    speakerSimilarity: (Wave, Wave) -> Outcome<real>)

  /** The duration scorer constructed at line 20. */
  const DurationScorer: Duration.AudioDuration := Duration.AudioDuration(Duration.PipelineRate)

  /** The two directories: their listings and `librosa.load(..., sr=16000, mono=True)` on a name
      in each, which returns the waveform or raises. */
  datatype Directories = Directories(
    outputListing: seq<string>,
    referenceListing: seq<string>,
    loadReference: string -> Outcome<Wave>,
    loadGenerated: string -> Outcome<Wave>)

  // ---------------------------------------------------------------------------------------
  // One unit (lines 35-67)

  /** The nine values one fully scored pair contributes, one per result list. */
  datatype UnitScores = UnitScores(
    bert: real, bleu: real, tokenDistance: real, mcd: real, logF0Rmse: real,
    utmos: real, dnsmos: real, speakerSim: real, durationErrorPct: real)

  /** The nine result lists, in the order the summary reports them. */
  datatype Metric = Bert | Bleu | TokenDistance | Mcd | LogF0Rmse | Utmos | Dnsmos | SpeakerSim
                  | DurationError

  function Get(u: UnitScores, m: Metric): real
  {
    match m
    case Bert => u.bert
    case Bleu => u.bleu
    case TokenDistance => u.tokenDistance
    case Mcd => u.mcd
    case LogF0Rmse => u.logF0Rmse
    case Utmos => u.utmos
    case Dnsmos => u.dnsmos
    case SpeakerSim => u.speakerSim
    case DurationError => u.durationErrorPct
  }

  /** Every scorer succeeds on the two (padded) waveforms. */
  predicate AllScorersSucceed(refAudio: Wave, genAudio: Wave, b: Battery)
  {
    && b.bertScore(refAudio, genAudio).Ok?
    && b.bleuScore(refAudio, genAudio).Ok?
    && b.tokenDistance(refAudio, genAudio).Ok?
    && b.mcdScore(refAudio, genAudio).Ok?
    && b.logF0RmseScore(refAudio, genAudio).Ok?
    && b.utmosScore(genAudio).Ok?
    && b.dnsmosScore(genAudio).Ok?
    && b.speakerSimilarity(refAudio, genAudio).Ok?
  }

  /** Lines 48-56: the nine scorer calls in order, the first exception ending the block. The
      duration scorer is given its own pair of waveforms: inference.py gives it the padded pair,
      `ScoreUnit` the loaded one. */
  function ScoreAll(refAudio: Wave, genAudio: Wave, durationRef: Wave, durationGen: Wave,
                    b: Battery): (r: Outcome<UnitScores>)
    ensures r.Ok? <==> AllScorersSucceed(refAudio, genAudio, b)
    ensures r.Ok? ==>
      && r.value.bert == b.bertScore(refAudio, genAudio).value.0
      && r.value.bleu == b.bleuScore(refAudio, genAudio).value
      && r.value.tokenDistance == b.tokenDistance(refAudio, genAudio).value
      && r.value.mcd == b.mcdScore(refAudio, genAudio).value
      && r.value.logF0Rmse == b.logF0RmseScore(refAudio, genAudio).value
      && r.value.utmos == b.utmosScore(genAudio).value
      && r.value.dnsmos == b.dnsmosScore(genAudio).value
      && r.value.speakerSim == b.speakerSimilarity(refAudio, genAudio).value
      && Duration.Score(DurationScorer, durationRef, durationGen) == Ok(r.value.durationErrorPct)
  {
    var bert :- b.bertScore(refAudio, genAudio);
    var bleu :- b.bleuScore(refAudio, genAudio);
    var distance :- b.tokenDistance(refAudio, genAudio);
    var mcd :- b.mcdScore(refAudio, genAudio);
    var logf0rmse :- b.logF0RmseScore(refAudio, genAudio);
    var utmos :- b.utmosScore(genAudio);
    var dns :- b.dnsmosScore(genAudio);
    var sim :- b.speakerSimilarity(refAudio, genAudio);
    var durationErrorPct := Duration.Score(DurationScorer, durationRef, durationGen).value;
    Ok(UnitScores(bert.0, bleu, distance, mcd, logf0rmse, utmos, dns, sim, durationErrorPct))
  }

  /** How the `try` block of one file ends. */
  datatype UnitOutcome = Scored(scores: UnitScores) | SkippedEmpty | Failed(error: Error)

  /** One iteration of the loop (lines 35-67) as evidently intended: load both files, skip an
      empty one, pad both to the longer length and score the padded pair, except that the
      duration scorer measures the waveforms as loaded. */
  function ScoreUnit(name: string, dirs: Directories, b: Battery): (r: UnitOutcome)
    ensures r.Failed? <==>
      || dirs.loadReference(name).Raised?
      || dirs.loadGenerated(name).Raised?
      || var refAudio, genAudio := dirs.loadReference(name).value, dirs.loadGenerated(name).value;
         var n := Max(|refAudio|, |genAudio|);
         && |refAudio| > 0 && |genAudio| > 0
         && !AllScorersSucceed(Pad(refAudio, n), Pad(genAudio, n), b)
  {
    match dirs.loadReference(name)
    case Raised(e) => Failed(e)
    case Ok(refAudio) =>
      match dirs.loadGenerated(name)
      case Raised(e) => Failed(e)
      case Ok(genAudio) =>
        if |refAudio| == 0 || |genAudio| == 0 then SkippedEmpty
        else
          var n := Max(|refAudio|, |genAudio|);
          var padRef, padGen := Pad(refAudio, n), Pad(genAudio, n);
          match ScoreAll(padRef, padGen, refAudio, genAudio, b)
          case Ok(s) => Scored(s)
          case Raised(e) => Failed(e)
  }

  /** The same iteration as inference.py writes it: the duration scorer also receives the
      padded pair (line 56 runs after the padding of lines 43-45). */
  function ScoreUnitAsWritten(name: string, dirs: Directories, b: Battery): (r: UnitOutcome)
    ensures r.Failed? <==>
      || dirs.loadReference(name).Raised?
      || dirs.loadGenerated(name).Raised?
      || var refAudio, genAudio := dirs.loadReference(name).value, dirs.loadGenerated(name).value;
         var n := Max(|refAudio|, |genAudio|);
         && |refAudio| > 0 && |genAudio| > 0
         && !AllScorersSucceed(Pad(refAudio, n), Pad(genAudio, n), b)
  {
    match dirs.loadReference(name)
    case Raised(e) => Failed(e)
    case Ok(refAudio) =>
      match dirs.loadGenerated(name)
      case Raised(e) => Failed(e)
      case Ok(genAudio) =>
        if |refAudio| == 0 || |genAudio| == 0 then SkippedEmpty
        else
          var n := Max(|refAudio|, |genAudio|);
          var padRef, padGen := Pad(refAudio, n), Pad(genAudio, n);
          match ScoreAll(padRef, padGen, padRef, padGen, b)
          case Ok(s) => Scored(s)
          case Raised(e) => Failed(e)
  }

  /** A pair is skipped exactly when both loads succeed and one waveform is empty; it is scored
      exactly when both loads succeed, both waveforms are non-empty and every scorer succeeds
      on the padded pair. So one failing scorer removes the pair from all nine lists. */
  lemma UnitOutcomeCases(name: string, dirs: Directories, b: Battery)
    ensures ScoreUnit(name, dirs, b).SkippedEmpty? <==>
      && dirs.loadReference(name).Ok? && dirs.loadGenerated(name).Ok?
      && (|dirs.loadReference(name).value| == 0 || |dirs.loadGenerated(name).value| == 0)
    ensures ScoreUnit(name, dirs, b).Scored? <==>
      && dirs.loadReference(name).Ok? && dirs.loadGenerated(name).Ok?
      && var refAudio, genAudio := dirs.loadReference(name).value, dirs.loadGenerated(name).value;
         var n := Max(|refAudio|, |genAudio|);
         && |refAudio| > 0 && |genAudio| > 0
         && AllScorersSucceed(Pad(refAudio, n), Pad(genAudio, n), b)
  {
  }

  /** A scored pair reports the relative mismatch of the loaded lengths as its duration error. */
  lemma ScoreUnitDuration(name: string, dirs: Directories, b: Battery)
    requires ScoreUnit(name, dirs, b).Scored?
    ensures dirs.loadReference(name).Ok? && dirs.loadGenerated(name).Ok?
    ensures |dirs.loadReference(name).value| > 0
    ensures ScoreUnit(name, dirs, b).scores.durationErrorPct ==
      Duration.RelativeErrorPct(|dirs.loadReference(name).value|, |dirs.loadGenerated(name).value|)
  {
    var refAudio, genAudio := dirs.loadReference(name).value, dirs.loadGenerated(name).value;
    Duration.ScoreIsRelativeError(DurationScorer, refAudio, genAudio);
  }

  /** The two versions skip, fail and score the same pairs, and a scored pair gets the same
      eight scorer values from both; as written, its duration error is always 0.0. */
  lemma AsWrittenDiffersOnlyInDuration(name: string, dirs: Directories, b: Battery)
    ensures ScoreUnitAsWritten(name, dirs, b).Scored? <==> ScoreUnit(name, dirs, b).Scored?
    ensures ScoreUnitAsWritten(name, dirs, b).Scored? ==>
      ScoreUnitAsWritten(name, dirs, b).scores ==
        ScoreUnit(name, dirs, b).scores.(durationErrorPct := 0.0)
  {
    match dirs.loadReference(name)
    case Raised(_) =>
    case Ok(refAudio) =>
      match dirs.loadGenerated(name)
      case Raised(_) =>
      case Ok(genAudio) =>
        if |refAudio| > 0 && |genAudio| > 0 {
          var n := Max(|refAudio|, |genAudio|);
          PadToLonger(refAudio, genAudio);
          Duration.EqualLengthsScoreZero(DurationScorer, Pad(refAudio, n), Pad(genAudio, n));
        }
  }

  /** One second of reference audio against 1.2 seconds of generated audio: as written the pair
      reports a 0.0 percent duration error, as intended 20 percent. */
  lemma DurationExample(name: string, dirs: Directories, b: Battery)
    requires dirs.loadReference(name).Ok? && |dirs.loadReference(name).value| == 16000
    requires dirs.loadGenerated(name).Ok? && |dirs.loadGenerated(name).value| == 19200
    requires ScoreUnit(name, dirs, b).Scored?
    ensures ScoreUnitAsWritten(name, dirs, b).Scored?
    ensures ScoreUnitAsWritten(name, dirs, b).scores.durationErrorPct == 0.0
    ensures ScoreUnit(name, dirs, b).scores.durationErrorPct == 20.0
  {
    AsWrittenDiffersOnlyInDuration(name, dirs, b);
    ScoreUnitDuration(name, dirs, b);
    Duration.ScoreExample(dirs.loadReference(name).value, dirs.loadGenerated(name).value);
    Duration.ScoreIsRelativeError(DurationScorer, dirs.loadReference(name).value,
                                  dirs.loadGenerated(name).value);
  }

  /** The `try` block on the two directories and the scorer battery, as the function from a
      file name to the way its block ends. */
  function BlockOf(dirs: Directories, b: Battery): string -> UnitOutcome
  {
    name => ScoreUnit(name, dirs, b)
  }

  /** The same, as inference.py writes the block. */
  function BlockAsWritten(dirs: Directories, b: Battery): string -> UnitOutcome
  {
    name => ScoreUnitAsWritten(name, dirs, b)
  }

  /** The units that reach the appends when the loop runs `block` on each name in order. */
  function Collected(names: seq<string>, block: string -> UnitOutcome): seq<UnitScores>
  {
    if names == [] then []
    else
      var init, name := names[..|names| - 1], names[|names| - 1];
      Collected(init, block) + Contribution(block(name))
  }

  /** What one unit adds to the collected units: itself when scored, nothing otherwise. */
  function Contribution(u: UnitOutcome): seq<UnitScores>
  {
    if u.Scored? then [u.scores] else []
  }

  /** One result list: metric `m` of every collected unit, in order. */
  function Column(units: seq<UnitScores>, m: Metric): seq<real>
  {
    seq(|units|, i requires 0 <= i < |units| => Get(units[i], m))
  }

  /** Every result list has one value per collected unit, the unit's value for its metric; so
      the nine lists always have the same length. */
  lemma ColumnShape(units: seq<UnitScores>, m: Metric)
    ensures |Column(units, m)| == |units|
    ensures forall i :: 0 <= i < |units| ==> Column(units, m)[i] == Get(units[i], m)
  {
  }

  /** Appending a unit appends its value to the result list of every metric. */
  lemma ColumnSnoc(units: seq<UnitScores>, s: UnitScores, m: Metric)
    ensures Column(units + [s], m) == Column(units, m) + [Get(s, m)]
  {
    assert forall i :: 0 <= i < |units| ==> (units + [s])[i] == units[i];
  }

  /** One more name adds the outcome of its unit, if scored, at the end. */
  lemma CollectedStep(names: seq<string>, k: nat, block: string -> UnitOutcome)
    requires k < |names|
    ensures Collected(names[..k + 1], block) == Collected(names[..k], block) + Contribution(block(names[k]))
  {
    assert names[..k + 1][..k] == names[..k];
  }

  /** The units with their duration error replaced by 0.0. */
  function ZeroDurations(units: seq<UnitScores>): (r: seq<UnitScores>)
    ensures |r| == |units|
    ensures forall i :: 0 <= i < |units| ==> r[i] == units[i].(durationErrorPct := 0.0)
  {
    seq(|units|, i requires 0 <= i < |units| => units[i].(durationErrorPct := 0.0))
  }

  /** As written, the loop collects the same units as intended, each with a duration error of
      0.0. */
  lemma {:induction false} CollectedAsWritten(names: seq<string>, dirs: Directories, b: Battery)
    ensures Collected(names, BlockAsWritten(dirs, b)) == ZeroDurations(Collected(names, BlockOf(dirs, b)))
  {
    if names != [] {
      var init, name := names[..|names| - 1], names[|names| - 1];
      CollectedAsWritten(init, dirs, b);
      AsWrittenDiffersOnlyInDuration(name, dirs, b);
      ZeroDurationsAppend(Collected(init, BlockOf(dirs, b)), Contribution(ScoreUnit(name, dirs, b)));
      assert Contribution(ScoreUnitAsWritten(name, dirs, b)) ==
             ZeroDurations(Contribution(ScoreUnit(name, dirs, b)));
    }
  }

  lemma ZeroDurationsAppend(a: seq<UnitScores>, c: seq<UnitScores>)
    ensures ZeroDurations(a + c) == ZeroDurations(a) + ZeroDurations(c)
  {
  }

  /** As written, every value of the duration list is 0.0, so its summary is "no valid scores"
      or mean 0.0 with variance 0.0 whatever the audio; the other eight lists are as
      intended. */
  lemma AsWrittenDurationColumn(names: seq<string>, dirs: Directories, b: Battery)
    ensures var col := Column(Collected(names, BlockAsWritten(dirs, b)), DurationError);
      && (forall i :: 0 <= i < |col| ==> col[i] == 0.0)
      && (Stats.Summarise(col) == Stats.NoValidScores || Stats.Summarise(col) == Stats.MeanVariance(0.0, 0.0))
    ensures forall m :: m != DurationError ==>
      Column(Collected(names, BlockAsWritten(dirs, b)), m) == Column(Collected(names, BlockOf(dirs, b)), m)
  {
    var units := Collected(names, BlockOf(dirs, b));
    CollectedAsWritten(names, dirs, b);
    ZeroDurationColumns(units);
    var col := Column(ZeroDurations(units), DurationError);
    if col != [] {
      Stats.ConstantSummary(col, 0.0);
    }
  }

  /** Zeroing the duration errors zeroes the duration list and leaves the other eight. */
  lemma ZeroDurationColumns(units: seq<UnitScores>)
    ensures forall i :: 0 <= i < |units| ==> Column(ZeroDurations(units), DurationError)[i] == 0.0
    ensures |Column(ZeroDurations(units), DurationError)| == |units|
    ensures forall m :: m != DurationError ==> Column(ZeroDurations(units), m) == Column(units, m)
  {
  }

  /** The loop collects no more units than there are names, and each collected unit is the
      scored outcome of one of the names. */
  lemma {:induction false} CollectedFromNames(names: seq<string>, block: string -> UnitOutcome)
    ensures |Collected(names, block)| <= |names|
    ensures forall u :: u in Collected(names, block) ==>
      exists i :: 0 <= i < |names| && block(names[i]) == Scored(u)
  {
    if names != [] {
      var init := names[..|names| - 1];
      CollectedFromNames(init, block);
      forall u | u in Collected(names, block)
        ensures exists i :: 0 <= i < |names| && block(names[i]) == Scored(u)
      {
        if u in Collected(init, block) {
          var i :| 0 <= i < |init| && block(init[i]) == Scored(u);
          assert names[i] == init[i];
        } else {
          assert block(names[|names| - 1]) == Scored(u);
        }
      }
    }
  }

  /** Running the loop over `a` and then over `b` collects `a`'s units followed by `b`'s: units
      reach the lists in name order. */
  lemma {:induction false} CollectedAppend(a: seq<string>, b: seq<string>,
                                           block: string -> UnitOutcome)
    ensures Collected(a + b, block) == Collected(a, block) + Collected(b, block)
  {
    if b == [] {
      assert a + b == a;
    } else {
      var init := b[..|b| - 1];
      assert (a + b)[..|a + b| - 1] == a + init;
      assert (a + b)[|a + b| - 1] == b[|b| - 1];
      CollectedAppend(a, init, block);
    }
  }

  /** A name whose block scores contributes its unit: when every block scores, nothing is lost. */
  lemma {:induction false} CollectedAllScored(names: seq<string>, block: string -> UnitOutcome)
    requires forall i :: 0 <= i < |names| ==> block(names[i]).Scored?
    ensures Collected(names, block) == seq(|names|, i requires 0 <= i < |names| => block(names[i]).scores)
  {
    if names != [] {
      CollectedAllScored(names[..|names| - 1], block);
    }
  }

  /** The metric names printed by the summary, in the order of lines 86-94. */
  const SummaryOrder: seq<Metric> :=
    [Bert, Bleu, TokenDistance, Mcd, LogF0Rmse, Utmos, Dnsmos, SpeakerSim, DurationError]

  function MetricName(m: Metric): string
  {
    match m
    case Bert => "SpeechBERTScore"
    case Bleu => "SpeechBLEU"
    case TokenDistance => "SpeechTokenDistance"
    case Mcd => "MCD"
    case LogF0Rmse => "Log F0 RMSE"
    case Utmos => "UTMOS"
    case Dnsmos => "DNSMOS"
    case SpeakerSim => "SpeakerSimilarity"
    case DurationError => "Audio Duration Error (%)"
  }

  // ---------------------------------------------------------------------------------------
  // The result lists (lines 22-24)

  /** Python's unpacking assignment of a tuple display to `targets` names: each name receives
      its value in order, and a count mismatch raises ValueError before any name is bound. */
  function Unpack<T>(targets: nat, values: seq<T>): (r: Outcome<seq<T>>)
    ensures r.Ok? <==> |values| == targets
    ensures r.Ok? ==> r.value == values
    ensures r.Raised? ==> r.error == ValueError
  {
    if |values| == targets then Ok(values) else Raised(ValueError)
  }

  /** An empty result list. */
  const NoScores: seq<real> := []

  /** Line 24 as written unpacks seven empty lists into six names, so `process_wav_files`
      raises before any directory is listed. */
  lemma ListInitialisationAsWritten()
    ensures Unpack(6, seq(7, _ => NoScores)) == Raised(ValueError)
  {
  }

  /** As intended, six empty lists for the six names of line 24 (and three for the three of
      line 23): every result list starts empty, as `CollectScores` has it. */
  lemma ListInitialisationIntended()
    ensures Unpack(6, seq(6, _ => NoScores)) == Ok([NoScores, NoScores, NoScores, NoScores, NoScores, NoScores])
    ensures Unpack(3, seq(3, _ => NoScores)).Ok?
  {
    var six := seq(6, _ => NoScores);
    assert six == [NoScores, NoScores, NoScores, NoScores, NoScores, NoScores] by {
      assert |six| == 6;
      forall k | 0 <= k < 6 ensures six[k] == NoScores { }
    }
  }

  /** The nine result lists of a sequence of collected units, in summary order. */
  function Columns(units: seq<UnitScores>): (r: seq<seq<real>>)
    ensures |r| == |SummaryOrder|
    ensures forall k :: 0 <= k < |SummaryOrder| ==> r[k] == Column(units, SummaryOrder[k])
  {
    seq(|SummaryOrder|, k requires 0 <= k < |SummaryOrder| => Column(units, SummaryOrder[k]))
  }

  /** Lines 85-94: `compute_mean_std` on each list, under the name printed for it. */
  function SummaryReport(lists: seq<seq<real>>): (r: seq<(string, Stats.Summary)>)
    requires |lists| == |SummaryOrder|
    ensures |r| == |SummaryOrder|
    ensures forall k :: 0 <= k < |SummaryOrder| ==>
      r[k].0 == MetricName(SummaryOrder[k]) && r[k].1 == Stats.Summarise(lists[k])
  {
    seq(|SummaryOrder|, k requires 0 <= k < |SummaryOrder| =>
      (MetricName(SummaryOrder[k]), Stats.Summarise(lists[k])))
  }

  // ---------------------------------------------------------------------------------------
  // The driver

  /** Lines 59-67: a fully scored unit appends each of its nine values to the end of its own
      list, so the lists of the collected units become the lists of the units and this one. */
  method AppendUnit(ghost units: seq<UnitScores>, s: UnitScores,
                    bertScores: seq<real>, bleuScores: seq<real>, tokenDistances: seq<real>,
                    mcdScores: seq<real>, logf0rmseScores: seq<real>, utmosScores: seq<real>,
                    dnsmosScores: seq<real>, simScores: seq<real>, durationErrors: seq<real>)
    returns (bertScores': seq<real>, bleuScores': seq<real>, tokenDistances': seq<real>,
             mcdScores': seq<real>, logf0rmseScores': seq<real>, utmosScores': seq<real>,
             dnsmosScores': seq<real>, simScores': seq<real>, durationErrors': seq<real>)
    requires bertScores == Column(units, Bert) && bleuScores == Column(units, Bleu)
    requires tokenDistances == Column(units, TokenDistance) && mcdScores == Column(units, Mcd)
    requires logf0rmseScores == Column(units, LogF0Rmse) && utmosScores == Column(units, Utmos)
    requires dnsmosScores == Column(units, Dnsmos) && simScores == Column(units, SpeakerSim)
    requires durationErrors == Column(units, DurationError)
    ensures bertScores' == Column(units + [s], Bert) && bleuScores' == Column(units + [s], Bleu)
    ensures tokenDistances' == Column(units + [s], TokenDistance)
    ensures mcdScores' == Column(units + [s], Mcd)
    ensures logf0rmseScores' == Column(units + [s], LogF0Rmse)
    ensures utmosScores' == Column(units + [s], Utmos)
    ensures dnsmosScores' == Column(units + [s], Dnsmos)
    ensures simScores' == Column(units + [s], SpeakerSim)
    ensures durationErrors' == Column(units + [s], DurationError)
  {
    bertScores' := bertScores + [s.bert];
    ColumnSnoc(units, s, Bert);
    bleuScores' := bleuScores + [s.bleu];
    ColumnSnoc(units, s, Bleu);
    tokenDistances' := tokenDistances + [s.tokenDistance];
    ColumnSnoc(units, s, TokenDistance);
    mcdScores' := mcdScores + [s.mcd];
    ColumnSnoc(units, s, Mcd);
    logf0rmseScores' := logf0rmseScores + [s.logF0Rmse];
    ColumnSnoc(units, s, LogF0Rmse);
    utmosScores' := utmosScores + [s.utmos];
    ColumnSnoc(units, s, Utmos);
    dnsmosScores' := dnsmosScores + [s.dnsmos];
    ColumnSnoc(units, s, Dnsmos);
    simScores' := simScores + [s.speakerSim];
    ColumnSnoc(units, s, SpeakerSim);
    durationErrors' := durationErrors + [s.durationErrorPct];
    ColumnSnoc(units, s, DurationError);
  }

  /** The loop of `process_wav_files` (lines 31-74) over the matched names. The nine lists grow
      together: a pair either adds one value to every list, at the end, or adds nothing.
      `telemetry` is the per-file print (lines 69-71), which runs after the appends; whether it
      raises is ignored, and nothing the loop returns depends on it. */
  method CollectScores(names: seq<string>, block: string -> UnitOutcome,
                       telemetry: (string, UnitScores) -> bool)
    returns (bertScores: seq<real>, bleuScores: seq<real>, tokenDistances: seq<real>,
             mcdScores: seq<real>, logf0rmseScores: seq<real>, utmosScores: seq<real>,
             dnsmosScores: seq<real>, simScores: seq<real>, durationErrors: seq<real>)
    ensures var units := Collected(names, block);
      && bertScores == Column(units, Bert)
      && bleuScores == Column(units, Bleu)
      && tokenDistances == Column(units, TokenDistance)
      && mcdScores == Column(units, Mcd)
      && logf0rmseScores == Column(units, LogF0Rmse)
      && utmosScores == Column(units, Utmos)
      && dnsmosScores == Column(units, Dnsmos)
      && simScores == Column(units, SpeakerSim)
      && durationErrors == Column(units, DurationError)
  {
    bertScores, bleuScores, tokenDistances := [], [], [];
    mcdScores, logf0rmseScores, utmosScores, dnsmosScores, simScores, durationErrors :=
      [], [], [], [], [], [];
    ghost var units: seq<UnitScores> := [];
    var k := 0;
    while k < |names|
      invariant 0 <= k <= |names|
      invariant units == Collected(names[..k], block)
      invariant bertScores == Column(units, Bert)
      invariant bleuScores == Column(units, Bleu)
      invariant tokenDistances == Column(units, TokenDistance)
      invariant mcdScores == Column(units, Mcd)
      invariant logf0rmseScores == Column(units, LogF0Rmse)
      invariant utmosScores == Column(units, Utmos)
      invariant dnsmosScores == Column(units, Dnsmos)
      invariant simScores == Column(units, SpeakerSim)
      invariant durationErrors == Column(units, DurationError)
    {
      var fileName := names[k];
      CollectedStep(names, k, block);
      // try: load, skip an empty pair, pad, score (lines 36-56); an exception or the skip
      // leaves every list as it was
      var outcome := block(fileName);
      if outcome.Scored? {
          var s := outcome.scores;
          bertScores, bleuScores, tokenDistances, mcdScores, logf0rmseScores, utmosScores,
            dnsmosScores, simScores, durationErrors :=
            AppendUnit(units, s, bertScores, bleuScores, tokenDistances, mcdScores,
                       logf0rmseScores, utmosScores, dnsmosScores, simScores, durationErrors);
          units := units + [s];
          var printed := telemetry(fileName, s);
      }
      k := k + 1;
    }
    assert names[..|names|] == names;
  }

  /** `process_wav_files(output_dir, reference_dir)`: collect the scores of the matched pairs,
      then summarise every list, in the order of lines 86-94 (`compute_mean_std`). */
  method ProcessWavFiles(dirs: Directories, b: Battery, telemetry: (string, UnitScores) -> bool)
    returns (bertScores: seq<real>, bleuScores: seq<real>, tokenDistances: seq<real>,
             mcdScores: seq<real>, logf0rmseScores: seq<real>, utmosScores: seq<real>,
             dnsmosScores: seq<real>, simScores: seq<real>, durationErrors: seq<real>,
             report: seq<(string, Stats.Summary)>)
    ensures var units := Collected(MatchedNames(dirs.outputListing, dirs.referenceListing), BlockOf(dirs, b));
      && bertScores == Column(units, Bert)
      && bleuScores == Column(units, Bleu)
      && tokenDistances == Column(units, TokenDistance)
      && mcdScores == Column(units, Mcd)
      && logf0rmseScores == Column(units, LogF0Rmse)
      && utmosScores == Column(units, Utmos)
      && dnsmosScores == Column(units, Dnsmos)
      && simScores == Column(units, SpeakerSim)
      && durationErrors == Column(units, DurationError)
      && report == SummaryReport(Columns(units))
  {
    var names := MatchedNames(dirs.outputListing, dirs.referenceListing);
    bertScores, bleuScores, tokenDistances, mcdScores, logf0rmseScores, utmosScores,
      dnsmosScores, simScores, durationErrors := CollectScores(names, BlockOf(dirs, b), telemetry);
    ghost var units := Collected(names, BlockOf(dirs, b));
    var lists := [bertScores, bleuScores, tokenDistances, mcdScores, logf0rmseScores,
                  utmosScores, dnsmosScores, simScores, durationErrors];
    assert lists == Columns(units);
    report := SummaryReport(lists);
  }
}
