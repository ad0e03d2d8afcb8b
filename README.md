# DiscreteSpeechMetrics: the evaluation drivers in Dafny

This project models the parts of DiscreteSpeechMetrics that have control flow of their own.
It leaves the neural and signal-processing libraries abstract.

- **The metric pipeline** (`process_wav_files` in `inference.py`), modelled in `inference.dfy`:
  - it pairs the `.wav` names present in both directories and walks them in sorted order;
  - it skips a pair with an empty waveform and zero-pads the shorter waveform;
  - it runs nine scorers under one `try` per pair and appends every value to its own list;
  - it summarises each list with `compute_mean_std`.
- **The transcription-error pipeline** (`error_rate.py`), modelled in `errorrate.dfy`:
  - it walks the sorted `.wav` names and derives each lookup key with `str.replace(".wav", "")`;
  - it skips names without a ground-truth entry;
  - it transcribes with Whisper and scores with jiwer, CER on raw text or WER on lowercased text;
  - it averages the collected rates.
- **`AudioDuration`** (`duration.dfy`): the relative duration mismatch of two waveforms.
- **`DNSMOS`** (`dnsmos.dfy`): a class whose constructor tries the GPU and falls back to the
  CPU, a shape check and key projection in `score`, and the `score_batch` loop that keeps
  going when one item fails.
- **Shared pieces**:
  - `sorting.dfy` holds the code-point string order and insertion sorts that compute the list `sorted`
    returns (CPython uses Timsort; only the result matters here);
  - `stats.dfy` holds the sum, mean and population variance;
  - `common.dfy` holds `Option`, the `Outcome` of a call that may raise, and `Wave`.

## How the model handles the outside world

- Every collaborator is a function-valued parameter that returns `Ok(value)` or
  `Raised(error)`. This covers `librosa.load`, the eight neural and DSP scorers, Whisper's
  `transcribe`, `jiwer.wer` / `jiwer.cer` and the torchmetrics network.
- A directory listing is a `seq<string>`.
- The JSON ground truth is a `map<string, map<string, string>>`.
- The two `process_wav_files` drivers are imperative methods.
  - Each loop runs over the sorted names and is proved against a recursive specification
    function (`Collected`).
  - Each loop is parameterised by its per-file block (`BlockOf`), so the loop's proof never
    unfolds the block.
- `AudioDuration(sr)` is a datatype: its `__init__` only stores `sr`.
- `DNSMOS` is a class with `sr`, `device` and `metric` fields, because its constructor
  updates them step by step.

## Behaviour worth knowing

- **Fault isolation is per pair, not per metric.** In `inference.py:35-74` one `try` covers
  the whole pair: the loads, the nine scorer calls, the nine appends and the per-pair print.
  An exception raised before the appends (lines 36-56) drops all nine values of that pair,
  and no value of it reaches a list. `Inference.UnitOutcomeCases` states this. An exception
  raised by the print at lines 69-71 comes after the appends and drops nothing; the print's
  `{dns:.4f}` formats the dictionary `DNSMOS.score` returns, so in the code it raises for every
  scored pair after that pair's values are stored. `Inference.CollectScores` ignores the
  print's outcome for this reason.
- **The duration error.** `AudioDuration.score` promises the "duration percentage error
  between reference and generated audio" (`discrete_speech_metrics/audioduration.py:13`), and
  the driver marks the duration scorer, its call, its append and its summary as a metric of
  its own (the `[DURATION]` lines 20, 56, 67 and 94 of `inference.py`). The code pads both
  waveforms to the same length before that call, so the scorer always measures equal lengths
  and reports 0.0. `Inference.ScoreUnitAsWritten` models the code as written. The driver uses
  the corrected block `Inference.ScoreUnit`, which measures the waveforms as loaded, as
  "## Findings" explains.

## Model

| member | source | states |
|---|---|---|
| `Inference.CommonWav` | inference.py:27-29 | a name is kept exactly when it is in the generated listing, ends in `.wav`, and is in the reference listing |
| `Inference.MatchedNames` | inference.py:27-31 | the visited names are strictly ascending (sorted, no repeats) and are exactly the intersection of the two sets of `.wav` names |
| `Sorting.SortDistinct` | inference.py:29-31 | `sorted` of a set: strictly ascending and holding exactly the given names |
| `Sorting.StrictlyAscendingUnique` | inference.py:31 | two strictly ascending lists with the same names are equal, so the sorted matched list does not depend on the order the set was built in |
| `Sorting.Sort` | error_rate.py:28 | `sorted(os.listdir(...))`: ascending, and a permutation (same multiset) of the listing |
| `Sorting.StrLess` | error_rate.py:28 | Python's `<` on `str`, by code point with a proper prefix first; it has no contract of its own, and the four `StrLess` lemmas below state that it is a strict total order |
| `Sorting.StrLessIrreflexive` | error_rate.py:28 | the string order used by `sorted` is irreflexive |
| `Sorting.StrLessAsymmetric` | error_rate.py:28 | the string order is asymmetric |
| `Sorting.StrLessTrichotomy` | error_rate.py:28 | any two distinct strings are ordered one way or the other |
| `Sorting.StrLessTransitive` | error_rate.py:28 | the string order is transitive |
| `Inference.Pad` | inference.py:43-45 | the result has length `n`, starts with the original waveform, and holds 0.0 after it |
| `Inference.PadToLonger` | inference.py:43-45 | padding to the longer length equalises the two lengths, never shortens, keeps each original as a prefix, adds only zeros, and leaves the longer waveform unchanged |
| `Inference.ScoreAll` | inference.py:48-56 | the nine calls succeed exactly when all eight fallible scorers succeed; each field is its scorer's value (the precision of SpeechBERTScore), and the duration field is the duration scorer's value |
| `Inference.ScoreUnit` | inference.py:35-74 | the block as intended fails exactly when a load raises, or both waveforms are non-empty and some scorer raises on the padded pair; `UnitOutcomeCases` states when it skips and scores, and `ScoreUnitDuration` its duration value |
| `Inference.ScoreUnitAsWritten` | inference.py:35-74 | the block as written fails under exactly the same conditions; `AsWrittenDiffersOnlyInDuration` states that it scores the same pairs with duration 0.0 |
| `Inference.UnitOutcomeCases` | inference.py:35-56 | a pair is skipped exactly when both loads succeed and one waveform is empty; it is scored exactly when both loads succeed, both are non-empty and every scorer succeeds on the padded pair, so one failing scorer loses the whole unit |
| `Inference.ScoreUnitDuration` | inference.py:43-56 | the intended block reports the relative mismatch of the loaded lengths as the duration error |
| `Inference.AsWrittenDiffersOnlyInDuration` | inference.py:43-56 | the as-written block scores the same pairs with the same eight values as the intended one, and its duration error is 0.0 |
| `Inference.DurationExample` | inference.py:43-56 | with 16000 reference and 19200 generated samples, the as-written block reports 0.0 and the intended one 20.0 |
| `Inference.CollectedAsWritten` | inference.py:31-74 | as written, the loop collects the intended units with every duration error replaced by 0.0 |
| `Inference.AsWrittenDurationColumn` | inference.py:56-67 | as written, every value of the duration list is 0.0 and its summary is "no valid scores" or mean 0.0 with variance 0.0; the other eight lists are unaffected |
| `Inference.ColumnShape` | inference.py:59-67 | each result list holds one value per collected unit, that unit's value for the metric, so the nine lists have equal lengths |
| `Inference.CollectedFromNames` | inference.py:31-74 | no more units are collected than there are names, and every collected unit is the scored outcome of one of the names |
| `Inference.CollectedAllScored` | inference.py:31-74 | when every pair is scored, the collected units are those pairs' scores in processing order |
| `Inference.CollectedAppend` | inference.py:31-67 | looping over `a` and then `b` collects `a`'s units followed by `b`'s, so units reach the lists in name order |
| `Inference.Unpack` | inference.py:23-24 | unpacking succeeds exactly when the number of values equals the number of names, each name then receiving its value in order, and a mismatch raises ValueError |
| `Inference.ListInitialisationAsWritten` | inference.py:24 | line 24 unpacks seven lists into six names and raises ValueError |
| `Inference.ListInitialisationIntended` | inference.py:23-24 | six lists for six names (and three for three) unpack into empty result lists |
| `Inference.SummaryReport` | inference.py:77-94 | one entry per list, in the printed order, each carrying the printed metric name and the `compute_mean_std` summary of its list |
| `Inference.AppendUnit` | inference.py:59-67 | a scored unit appends each of its nine values at the end of its own list, so the lists become those of the collected units plus this one |
| `Inference.CollectScores` | inference.py:31-74 | after the loop, each of the nine lists is its metric's column of the units collected in name order, whatever the per-file print does |
| `Inference.ProcessWavFiles` | inference.py:10-94 | the nine lists are the columns of the units collected over the matched names, and the report summarises each list under its name |
| `Stats.Mean` | inference.py:79 | the mean times the number of scores is their sum |
| `Stats.Summarise` | inference.py:77-83 | "no valid scores" exactly for an empty list; otherwise mean × n = sum and variance × n = the sum of squared deviations from the mean (ddof = 0) |
| `Stats.MeanWithinBounds` | inference.py:79 | the mean lies between any lower and upper bound of the scores |
| `Stats.SquaredDeviationsNonNegative` | inference.py:80 | the sum of squared deviations is never negative |
| `Stats.VarianceNonNegative` | inference.py:80 | the reported population variance is never negative |
| `Stats.SquaredDeviationsOfConstant` | inference.py:80 | scores that all equal the centre have no deviation |
| `Stats.ConstantSummary` | inference.py:77-83 | a non-empty list of equal scores `c` summarises to mean `c` and variance 0 |
| `Stats.MeanOrNone` | error_rate.py:61-66 | no mean exactly when no score was collected; otherwise mean × n = sum |
| `Duration.Score` | discrete_speech_metrics/audioduration.py:11-26 | raises ZeroDivisionError exactly when `sr` is 0, and gives 0.0 for an empty reference |
| `Duration.ScoreIsRelativeError` | discrete_speech_metrics/audioduration.py:22-25 | with `sr > 0` and a non-empty reference, the score is `abs(lenRef - lenGen) / lenRef * 100`: the rate cancels |
| `Duration.ScoreDependsOnlyOnLengths` | discrete_speech_metrics/audioduration.py:22-23 | waveforms of equal lengths get equal scores, whatever their samples |
| `Duration.EqualLengthsScoreZero` | discrete_speech_metrics/audioduration.py:24-25 | equal lengths give 0.0 |
| `Duration.ScoreNonNegative` | discrete_speech_metrics/audioduration.py:24-25 | with a positive rate the score exists and is never negative |
| `Duration.ScoreExample` | discrete_speech_metrics/audioduration.py:22-25 | 16000 against 19200 samples at 16 kHz gives 20.0 |
| `DnsmosMetric.InitOutcome` | discrete_speech_metrics/dnsmos.py:14-31 | `__init__` returns exactly when the GPU path or the CPU path succeeds; the device is CUDA exactly when the GPU was requested, was available and constructed; the network is the one built for that device |
| `DnsmosMetric.Dnsmos.constructor` | discrete_speech_metrics/dnsmos.py:14-31 | after construction a network is set, `sr` is stored, the device and network are those of `InitOutcome`, and the device is CUDA only on the GPU path |
| `DnsmosMetric.Dnsmos.Score` | discrete_speech_metrics/dnsmos.py:43-47 | ValueError for a non-one-dimensional input, before the network runs; success exactly when the network returns at least four values; the result then has exactly the keys SIG, BAK and OVRL, holding outputs 1, 2 and 3 |
| `DnsmosMetric.Dnsmos.ScoreBatch` | discrete_speech_metrics/dnsmos.py:59-68 | one result per input, in order; result i is `score(wav_list[i])` when that succeeds and the `None` triple when it raises; every result has the three keys |
| `ErrorRate.Lower` | error_rate.py:10 | lowercasing keeps the length, leaves no upper-case letter, maps each upper-case letter to its lower-case partner and keeps every other character |
| `ErrorRate.LowerIdempotent` | error_rate.py:10 | lowercasing twice is lowercasing once |
| `ErrorRate.CalculateWer` | error_rate.py:9-10 | `calculate_wer`: jiwer's WER on both texts lowercased; it has no contract of its own, and `WerIgnoresCase` and `RatesAgreeOnLowerCase` state its behaviour |
| `ErrorRate.CalculateCer` | error_rate.py:13-14 | `calculate_cer`: jiwer's CER on the texts unchanged; it has no contract of its own, and `RatesAgreeOnLowerCase` relates it to `CalculateWer` |
| `ErrorRate.WerIgnoresCase` | error_rate.py:9-10 | texts that agree once lowercased get the same WER, and lowercasing them first changes nothing |
| `ErrorRate.RatesAgreeOnLowerCase` | error_rate.py:9-14 | on texts with no upper-case letter, `calculate_wer` and `calculate_cer` pass identical texts to their measure |
| `ErrorRate.FileKey` | error_rate.py:31 | the key is never longer than the name; `FileKeyConcat` and `FileKeyOfPlain` state what the removal yields |
| `ErrorRate.FileKeyOfPlain` | error_rate.py:31 | a name without ".wav" is its own key |
| `ErrorRate.FileKeyStripsExtension` | error_rate.py:31 | the key of `stem + ".wav"` is `stem` when the stem contains no ".wav" |
| `ErrorRate.FileKeyConcat` | error_rate.py:31 | the key of `a + ".wav" + b` is the key of `a` followed by the key of `b`: every ".wav" found scanning from the left is removed and the scan resumes after it; with `FileKeyOfPlain` this fixes every key |
| `ErrorRate.FileKeyExample` | error_rate.py:31 | the key of `a.wav.wav` is `a` |
| `ErrorRate.FileKeyNotRescanned` | error_rate.py:31 | the removal does not rescan its output: `.w.wavav` becomes `.wav` |
| `ErrorRate.ScoreFile` | error_rate.py:29-58 | a name ends as not-a-`.wav` exactly when it does not end in ".wav", and as skipped-without-entry exactly when it does but its key is not in the ground truth; `ScoreFileCases` states when it is scored |
| `ErrorRate.SkippedWithoutTranscribing` | error_rate.py:29-33 | a non-`.wav` name, or one whose key has no entry, is skipped with an outcome that does not depend on Whisper or jiwer |
| `ErrorRate.ScoreFileCases` | error_rate.py:33-50 | a file is scored exactly when its record has a text, Whisper returns a text under the flag's hint (`"ja"` or none), and the flag's measure (CER on raw text, WER on lowercased text) returns a rate; the rate is that value |
| `ErrorRate.TranscribedWithHint` | error_rate.py:39 | the outcome depends on Whisper only through the call with the flag's language hint |
| `ErrorRate.CountEligible` | error_rate.py:29-33 | the number of `.wav` names with an entry is at most the number of names |
| `ErrorRate.CollectedAtMostEligible` | error_rate.py:28-50 | no more rates are collected than there are `.wav` names with an entry |
| `ErrorRate.CollectedFromNames` | error_rate.py:28-50 | every collected rate is the scored outcome of one of the names |
| `ErrorRate.CollectedAppend` | error_rate.py:28-50 | looping over `a` and then `b` collects `a`'s rates followed by `b`'s, so rates appear in file order |
| `ErrorRate.CollectRates` | error_rate.py:28-58 | the loop's rates are the scored outcomes in name order; the metric name is set exactly when a rate was collected, and is then "CER" or "WER" by the flag |
| `ErrorRate.ProcessWavFiles` | error_rate.py:16-66 | rates over the sorted listing, metric name as above, and the mean is `MeanOrNone` of the rates |

## Left out

- I/O is not modelled: `os.listdir`, `os.path.join`, JSON reading and `argparse`. Listings
  and the ground truth are inputs. A JSON file whose shape is not an object of objects (for
  instance a record that is not a dictionary) is not modelled.
- `librosa.load`, resampling and all scorers are abstract function parameters. So are
  Whisper and its model loading (`error_rate.py:22`), jiwer, and the torchmetrics network.
  Their sources are not available, and only success or exception and the returned value
  matter to the drivers.
- Scorer construction (`inference.py:12-19`) is not modelled. The battery of scorers is a
  parameter.
- `discrete_speech_metrics/speakersimilarity.py` is not part of this model. Speaker
  similarity is one more scorer parameter.
- `setup.py` is packaging metadata.
- Printed telemetry and format strings are left out.
  - The per-pair print of `inference.py:69-71` is a `telemetry` parameter whose result is
    ignored. It only shows that the appends come first.
- Torch device placement and tensor conversion are left out. CUDA availability and GPU
  construction success are inputs.
- Every Python exception class maps to a small `Error` type. Collaborator exceptions keep
  whatever error the parameter returns.
- Floating point is modelled as exact reals, with no rounding.
- `Stats.Summarise`: reports the population variance, not `np.std`, which is its square root.
  Dafny has no square root.
- `ErrorRate.Lower`: folds only the ASCII letters A-Z. Python's `str.lower` also folds other
  Unicode letters.
- `DnsmosMetric.Dnsmos.constructor`: requires that `__init__` returns. In the runs where the
  CPU construction raises, the exception escapes `__init__`; `DnsmosMetric.InitOutcome`
  covers those runs.
- The DNSMOS scorer of the metric pipeline is treated as returning one number. In the code,
  `DNSMOS.score` returns a dictionary that `inference.py:70` and `:92` then treat as a
  number.
- `Duration.ScoreNonNegative`: requires a positive rate. With a negative `sr` the score is
  negative. The lemma does not cover that case.
- `Inference.ProcessWavFiles`: models the driver as intended, with six lists at line 24 and
  the duration scorer on the loaded waveforms. See "## Findings".

## Findings

| source | as written | input that shows it | evidently intended | confidence | as-written member | corrected member |
|---|---|---|---|---|---|---|
| inference.py:24 | seven empty lists are unpacked into six names | any call of `process_wav_files`: the unpacking raises ValueError before a directory is listed | six empty lists, one per name | high, not executed | `Inference.ListInitialisationAsWritten` | `Inference.ListInitialisationIntended` |
| inference.py:43-56 | the duration scorer receives the padded waveforms, whose lengths are always equal | 1.0 s of reference audio (16000 samples) against 1.2 s of generated audio (19200 samples): 0.0 is reported (`Inference.DurationExample`) | the duration error of the loaded waveforms, 20.0 here | high, not executed | `Inference.AsWrittenDurationColumn` | `Inference.ScoreUnitDuration` |
