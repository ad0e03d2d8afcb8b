/** The transcription-error pipeline (error_rate.py): walk the sorted `.wav` names of a
    directory, look each one up in a ground-truth mapping under its name with ".wav" removed,
    transcribe it with Whisper and score the transcript with jiwer against the reference text,
    character error rate for Japanese and word error rate on lowercased text otherwise, and
    average the collected rates. */
module ErrorRate {
  import opened Common
  import opened Sorting
  import Stats

  // ---------------------------------------------------------------------------------------
  // Case folding (lines 9-10)

  predicate IsUpper(c: char)
  {
    'A' <= c <= 'Z'
  }

  function LowerChar(c: char): char
  {
    if IsUpper(c) then (c as int + 32) as char else c
  }

  /** `str.lower()` on the ASCII letters: every upper-case letter becomes its lower-case
      partner and every other character stays. */
  function Lower(s: string): (r: string)
    ensures |r| == |s|
    ensures forall i :: 0 <= i < |s| ==> !IsUpper(r[i])
    ensures forall i :: 0 <= i < |s| && !IsUpper(s[i]) ==> r[i] == s[i]
    ensures forall i :: 0 <= i < |s| && IsUpper(s[i]) ==> r[i] as int == s[i] as int + 32
  {
    seq(|s|, i requires 0 <= i < |s| => LowerChar(s[i]))
  }

  /** Lowering twice is lowering once. */
  lemma LowerIdempotent(s: string)
    ensures Lower(Lower(s)) == Lower(s)
  {
    var once := Lower(s);
    forall i | 0 <= i < |s| ensures Lower(once)[i] == once[i] {
      assert !IsUpper(once[i]);
    }
  }

  // ---------------------------------------------------------------------------------------
  // The two error rates (lines 8-14)

  /** `jiwer.wer` or `jiwer.cer`: a rate for a reference and a hypothesis, or an exception
      (jiwer rejects an empty reference, for instance). */
  type RateFunction = (string, string) -> Outcome<real>

  /** `calculate_wer`: jiwer's word error rate on the lowercased texts. */
  function CalculateWer(wer: RateFunction, refText: string, hypText: string): Outcome<real>
  {
    wer(Lower(refText), Lower(hypText))
  }

  /** `calculate_cer`: jiwer's character error rate on the texts as they are. */
  function CalculateCer(cer: RateFunction, refText: string, hypText: string): Outcome<real>
  {
    cer(refText, hypText)
  }

  /** The word error rate ignores the case of both texts: texts that agree once lowercased get
      the same rate, and lowercasing them first changes nothing. */
  lemma WerIgnoresCase(wer: RateFunction, ref1: string, hyp1: string, ref2: string, hyp2: string)
    requires Lower(ref1) == Lower(ref2) && Lower(hyp1) == Lower(hyp2)
    ensures CalculateWer(wer, ref1, hyp1) == CalculateWer(wer, ref2, hyp2)
    ensures CalculateWer(wer, Lower(ref1), Lower(hyp1)) == CalculateWer(wer, ref1, hyp1)
  {
    LowerIdempotent(ref1);
    LowerIdempotent(hyp1);
  }

  /** On texts without upper-case letters the two rates differ only in the jiwer measure they
      call. */
  lemma RatesAgreeOnLowerCase(measure: RateFunction, refText: string, hypText: string)
    requires forall i :: 0 <= i < |refText| ==> !IsUpper(refText[i])
    requires forall i :: 0 <= i < |hypText| ==> !IsUpper(hypText[i])
    ensures CalculateWer(measure, refText, hypText) == CalculateCer(measure, refText, hypText)
  {
    assert Lower(refText) == refText;
    assert Lower(hypText) == hypText;
  }

  // ---------------------------------------------------------------------------------------
  // Lookup key (line 31)

  const Extension: string := ".wav"

  /** An occurrence of ".wav" in `s` starting at position `i`. */
  predicate WavAt(s: string, i: nat)
  {
    i + 4 <= |s| && s[i..i + 4] == Extension
  }

  /** Some occurrence of ".wav" in `s`. */
  ghost predicate ContainsWav(s: string)
  {
    exists i: nat :: WavAt(s, i)
  }

  /** An occurrence in the tail of `s` is one in `s` itself. */
  lemma WavAtTail(s: string, i: nat)
    requires |s| > 0 && WavAt(s[1..], i)
    ensures WavAt(s, i + 1)
  {
    assert s[1..][i..i + 4] == s[i + 1..i + 5];
  }

  /** `s.replace(".wav", "")`: every occurrence of ".wav" found scanning from the left is
      removed, and the scan resumes after the removed text. */
  function FileKey(s: string): (r: string)
    ensures |r| <= |s|
    decreases |s|
  {
    if |s| < 4 then s
    else if s[..4] == Extension then FileKey(s[4..])
    else [s[0]] + FileKey(s[1..])
  }

  /** A name without ".wav" is its own key. */
  lemma {:induction false} FileKeyOfPlain(s: string)
    requires !ContainsWav(s)
    ensures FileKey(s) == s
  {
    if |s| >= 4 {
      assert !WavAt(s, 0);
      assert !ContainsWav(s[1..]) by {
        forall i: nat | WavAt(s[1..], i) ensures false {
          WavAtTail(s, i);
        }
      }
      FileKeyOfPlain(s[1..]);
    }
  }

  /** The key of `stem + ".wav"` is `stem` when the stem holds no ".wav" of its own: no
      occurrence can straddle the end of the stem, since no proper end of ".wav" begins it. */
  lemma {:induction false} FileKeyStripsExtension(stem: string)
    requires !ContainsWav(stem)
    ensures FileKey(stem + Extension) == stem
  {
    var s := stem + Extension;
    if stem == [] {
      assert s[4..] == [];
    } else {
      assert s[..4] != Extension by {
        if |stem| >= 4 {
          assert s[..4] == stem[0..4];
          assert !WavAt(stem, 0);
        } else {
          // the first character of the appended ".wav" lands at position 1, 2 or 3 of the
          // window, where ".wav" has no '.'
          assert s[|stem|] == '.';
        }
      }
      assert !ContainsWav(stem[1..]) by {
        forall i: nat | WavAt(stem[1..], i) ensures false {
          WavAtTail(stem, i);
        }
      }
      assert s[1..] == stem[1..] + Extension;
      FileKeyStripsExtension(stem[1..]);
    }
  }

  /** Each ".wav" found by the scan is removed and the scan resumes after it: the key of
      `a + ".wav" + b` is the key of `a` followed by the key of `b`. With `FileKeyOfPlain` this
      fixes the key of every name. */
  lemma {:induction false} FileKeyConcat(a: string, b: string)
    ensures FileKey(a + Extension + b) == FileKey(a) + FileKey(b)
    decreases |a|
  {
    var s := a + Extension + b;
    if a == [] {
      assert s[..4] == Extension;
      assert s[4..] == b;
    } else if |a| < 4 {
      assert s[..4] != Extension by {
        // the '.' of the appended ".wav" lands at position 1, 2 or 3 of the window
        assert s[|a|] == '.';
      }
      assert s[1..] == a[1..] + Extension + b;
      FileKeyConcat(a[1..], b);
    } else if a[..4] == Extension {
      assert s[..4] == a[..4];
      assert s[4..] == a[4..] + Extension + b;
      FileKeyConcat(a[4..], b);
    } else {
      assert s[..4] == a[..4];
      assert s[1..] == a[1..] + Extension + b;
      FileKeyConcat(a[1..], b);
    }
  }

  /** The key of "a.wav.wav" is "a": both occurrences go. */
  lemma FileKeyExample()
    ensures FileKey("a.wav.wav") == "a"
  {
    assert "a.wav.wav"[1..] == ".wav.wav";
    assert ".wav.wav"[4..] == ".wav";
    assert ".wav"[4..] == "";
  }

  /** The removal does not rescan what it has produced: ".w.wavav" becomes ".wav". */
  lemma FileKeyNotRescanned()
    ensures FileKey(".w.wavav") == ".wav"
    ensures ContainsWav(FileKey(".w.wavav"))
  {
    assert ".w.wavav"[1..] == "w.wavav";
    assert "w.wavav"[1..] == ".wavav";
    assert ".wavav"[4..] == "av";
    assert WavAt(".wav", 0);
  }

  // ---------------------------------------------------------------------------------------
  // One file (lines 29-58)

  /** The ground truth after `json.load`: a key maps to a record of string fields. */
  type GroundTruth = map<string, map<string, string>>

  /** The field holding the text of a record and of a Whisper result. */
  const TextField: string := "text"

  /** The external tools: Whisper's `transcribe` on a file name and a language hint, giving its
      result dictionary or raising, and jiwer's two measures. */
  datatype Tools = Tools(
    transcribe: (string, Option<string>) -> Outcome<map<string, string>>,
    wer: RateFunction,
    cer: RateFunction)

  /** The language hint of line 39. */
  function LanguageHint(isJapanese: bool): Option<string>
  {
    if isJapanese then Some("ja") else None
  }

  /** The metric name of lines 45 and 48. */
  function MetricName(isJapanese: bool): string
  {
    if isJapanese then "CER" else "WER"
  }

  /** How one directory entry ends. */
  datatype FileOutcome = NotWav | NoEntry | Failed(error: Error) | Scored(rate: real)

  /** The body of the loop for one name: only `.wav` names are considered; a name whose key is
      not in the ground truth is skipped; otherwise the `try` block reads the reference text,
      transcribes, and scores with the measure the flag selects, any exception ending it. */
  function ScoreFile(name: string, truth: GroundTruth, isJapanese: bool, tools: Tools): (r: FileOutcome)
    ensures r.NotWav? <==> !EndsWithWav(name)
    ensures r.NoEntry? <==> EndsWithWav(name) && FileKey(name) !in truth
  {
    if !EndsWithWav(name) then NotWav
    else
      var key := FileKey(name);
      if key !in truth then NoEntry
      else if TextField !in truth[key] then Failed(KeyError)
      else
        var refText := truth[key][TextField];
        match tools.transcribe(name, LanguageHint(isJapanese))
        case Raised(e) => Failed(e)
        case Ok(result) =>
          if TextField !in result then Failed(KeyError)
          else
            var hypText := result[TextField];
            var rate := if isJapanese then CalculateCer(tools.cer, refText, hypText)
                        else CalculateWer(tools.wer, refText, hypText);
            match rate
            case Ok(r) => Scored(r)
            case Raised(e) => Failed(e)
  }

  /** A name that is not a `.wav` file, or whose key has no entry, is skipped before Whisper
      runs: its outcome is the same whatever the tools do. */
  lemma SkippedWithoutTranscribing(name: string, truth: GroundTruth, isJapanese: bool,
                                   tools1: Tools, tools2: Tools)
    requires !EndsWithWav(name) || FileKey(name) !in truth
    ensures ScoreFile(name, truth, isJapanese, tools1) == ScoreFile(name, truth, isJapanese, tools2)
    ensures ScoreFile(name, truth, isJapanese, tools1).NotWav? || ScoreFile(name, truth, isJapanese, tools1).NoEntry?
  {
  }

  /** A name is scored exactly when it is a `.wav` file whose key has a record with a text,
      Whisper returns a result with a text for the hint the flag selects, and the selected
      measure returns a rate; the rate is that measure's value. */
  lemma ScoreFileCases(name: string, truth: GroundTruth, isJapanese: bool, tools: Tools)
    ensures ScoreFile(name, truth, isJapanese, tools).Scored? <==>
      && EndsWithWav(name)
      && FileKey(name) in truth && TextField in truth[FileKey(name)]
      && tools.transcribe(name, LanguageHint(isJapanese)).Ok?
      && TextField in tools.transcribe(name, LanguageHint(isJapanese)).value
      && var refText := truth[FileKey(name)][TextField];
         var hypText := tools.transcribe(name, LanguageHint(isJapanese)).value[TextField];
         (if isJapanese then CalculateCer(tools.cer, refText, hypText)
          else CalculateWer(tools.wer, refText, hypText)).Ok?
    ensures ScoreFile(name, truth, isJapanese, tools).Scored? ==>
      var refText := truth[FileKey(name)][TextField];
      var hypText := tools.transcribe(name, LanguageHint(isJapanese)).value[TextField];
      Ok(ScoreFile(name, truth, isJapanese, tools).rate) ==
        (if isJapanese then CalculateCer(tools.cer, refText, hypText)
         else CalculateWer(tools.wer, refText, hypText))
  {
  }

  /** Whisper is asked only with the hint the flag selects: tools that agree on that call
      give the same outcome. */
  lemma TranscribedWithHint(name: string, truth: GroundTruth, isJapanese: bool,
                            tools1: Tools, tools2: Tools)
    requires tools1.transcribe(name, LanguageHint(isJapanese)) ==
             tools2.transcribe(name, LanguageHint(isJapanese))
    requires tools1.wer == tools2.wer && tools1.cer == tools2.cer
    ensures ScoreFile(name, truth, isJapanese, tools1) == ScoreFile(name, truth, isJapanese, tools2)
  {
  }

  // ---------------------------------------------------------------------------------------
  // The driver (lines 16-66)

  /** The loop body on a fixed ground truth, flag and tools. */
  function BlockOf(truth: GroundTruth, isJapanese: bool, tools: Tools): string -> FileOutcome
  {
    name => ScoreFile(name, truth, isJapanese, tools)
  }

  /** The rates the loop collects when it runs `block` on each name in order. */
  function Collected(names: seq<string>, block: string -> FileOutcome): seq<real>
  {
    if names == [] then []
    else
      var init, name := names[..|names| - 1], names[|names| - 1];
      Collected(init, block) + (if block(name).Scored? then [block(name).rate] else [])
  }

  /** The number of names that are `.wav` files whose key has an entry. */
  function CountEligible(names: seq<string>, truth: GroundTruth): (n: nat)
    ensures n <= |names|
  {
    if names == [] then 0
    else
      var init, name := names[..|names| - 1], names[|names| - 1];
      CountEligible(init, truth) + (if EndsWithWav(name) && FileKey(name) in truth then 1 else 0)
  }

  /** At most one rate per eligible name is collected. */
  lemma {:induction false} CollectedAtMostEligible(names: seq<string>, truth: GroundTruth,
                                                   isJapanese: bool, tools: Tools)
    ensures |Collected(names, BlockOf(truth, isJapanese, tools))| <= CountEligible(names, truth)
  {
    if names != [] {
      var init, name := names[..|names| - 1], names[|names| - 1];
      CollectedAtMostEligible(init, truth, isJapanese, tools);
      if !EndsWithWav(name) || FileKey(name) !in truth {
        SkippedWithoutTranscribing(name, truth, isJapanese, tools, tools);
      }
    }
  }

  /** Each collected rate is the score of one of the names. */
  lemma {:induction false} CollectedFromNames(names: seq<string>, block: string -> FileOutcome)
    ensures forall x :: x in Collected(names, block) ==>
      exists i :: 0 <= i < |names| && block(names[i]) == Scored(x)
  {
    if names != [] {
      var init := names[..|names| - 1];
      CollectedFromNames(init, block);
      forall x | x in Collected(names, block)
        ensures exists i :: 0 <= i < |names| && block(names[i]) == Scored(x)
      {
        if x in Collected(init, block) {
          var i :| 0 <= i < |init| && block(init[i]) == Scored(x);
          assert names[i] == init[i];
        } else {
          assert block(names[|names| - 1]) == Scored(x);
        }
      }
    }
  }

  /** Running the loop over `a` and then over `b` collects `a`'s rates followed by `b`'s: rates
      from earlier names precede rates from later names. */
  lemma {:induction false} CollectedAppend(a: seq<string>, b: seq<string>,
                                           block: string -> FileOutcome)
    ensures Collected(a + b, block) == Collected(a, block) + Collected(b, block)
  {
    if b == [] {
      assert a + b == a;
    } else {
      var init := b[..|b| - 1];
      assert (a + b)[..|a + b| - 1] == a + init;
      assert (a + b)[|a + b| - 1] == b[|b| - 1];
      CollectedAppend(a, init, block);
    }
  }

  /** The loop of lines 28-58 over `names`: a scored file appends its rate and sets the metric
      name; any other outcome leaves both as they were. */
  method CollectRates(names: seq<string>, block: string -> FileOutcome, isJapanese: bool)
    returns (errorScores: seq<real>, metricName: Option<string>)
    ensures errorScores == Collected(names, block)
    ensures metricName.Some? <==> errorScores != []
    ensures metricName.Some? ==> metricName.value == MetricName(isJapanese)
  {
    errorScores := [];
    metricName := None;
    var k := 0;
    while k < |names|
      invariant 0 <= k <= |names|
      invariant errorScores == Collected(names[..k], block)
      invariant metricName.Some? <==> errorScores != []
      invariant metricName.Some? ==> metricName.value == MetricName(isJapanese)
    {
      assert names[..k + 1][..k] == names[..k];
      var outcome := block(names[k]);
      if outcome.Scored? {
        metricName := Some(MetricName(isJapanese));
        errorScores := errorScores + [outcome.rate];
      }
      k := k + 1;
    }
    assert names[..|names|] == names;
  }

  /** `process_wav_files(wav_dir, json_path, is_japanese)` on the directory listing and the
      loaded ground truth: the rates of the sorted names, the metric name once a rate exists,
      and their mean, or nothing when no rate was collected ("No valid scores computed."). */
  method ProcessWavFiles(listing: seq<string>, truth: GroundTruth, isJapanese: bool, tools: Tools)
    returns (errorScores: seq<real>, metricName: Option<string>, meanError: Option<real>)
    ensures errorScores == Collected(Sort(listing), BlockOf(truth, isJapanese, tools))
    ensures metricName.Some? <==> errorScores != []
    ensures metricName.Some? ==> metricName.value == MetricName(isJapanese)
    ensures meanError == Stats.MeanOrNone(errorScores)
  {
    var names := Sort(listing);
    errorScores, metricName := CollectRates(names, BlockOf(truth, isJapanese, tools), isJapanese);
    meanError := Stats.MeanOrNone(errorScores);
  }
}
