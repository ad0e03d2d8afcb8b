/** The DNSMOS P.835 wrapper (discrete_speech_metrics/dnsmos.py): device selection with a CPU
    fallback at construction, a shape check and key projection around the torchmetrics
    network, and a batch loop that turns a failing item into a triple of `None`s. */
module DnsmosMetric {
  import opened Common

  datatype Device = Cpu | Cuda

  /** A numpy array as `score` sees it: its number of dimensions and its samples in order. */
  datatype NdArray = NdArray(ndim: nat, samples: seq<real>)

  /** A constructed `DeepNoiseSuppressionMeanOpinionScore(fs, personalized=False, device)`
      network: it maps a waveform to its output tensor (P.808, SIG, BAK, OVRL) or raises. */
  datatype Network = Network(run: seq<real> -> Outcome<seq<real>>)

  /** The keys of a DNSMOS result. */
  const Sig: string := "SIG"
  const Bak: string := "BAK"
  const Ovrl: string := "OVRL"

  /** A result dictionary; `None` values mark an item that failed inside `score_batch`. */
  type Scores = map<string, Option<real>>

  /** `{"SIG": None, "BAK": None, "OVRL": None}`. */
  const NoneTriple: Scores := map[Sig := None, Bak := None, Ovrl := None]

  /** The device and network `__init__` ends with, or the exception it raises: the GPU is tried
      only when requested and available, and the CPU construction runs whenever no network
      was obtained, its failure escaping `__init__`. */
  function InitOutcome(sr: int, useGpu: bool, cudaAvailable: bool,
                       build: (int, Device) -> Outcome<Network>): (r: Outcome<(Device, Network)>)
    ensures r.Ok? <==> (useGpu && cudaAvailable && build(sr, Cuda).Ok?) || build(sr, Cpu).Ok?
    ensures r.Ok? && r.value.0 == Cuda <==> useGpu && cudaAvailable && build(sr, Cuda).Ok?
    ensures r.Ok? ==> build(sr, r.value.0) == Ok(r.value.1)
  {
    if useGpu && cudaAvailable && build(sr, Cuda).Ok? then Ok((Cuda, build(sr, Cuda).value))
    else match build(sr, Cpu)
      case Ok(network) => Ok((Cpu, network))
      case Raised(e) => Raised(e)
  }

  class Dnsmos {
    var sr: int
    var device: Device
    var metric: Option<Network>

    /** After construction a network is always present. */
    ghost predicate Valid()
      reads this
    {
      metric.Some?
    }

    /** `DNSMOS.__init__`, step by step: start on the CPU with no network, try the GPU, and
        construct on the CPU if no network was obtained. The requires clause names the runs in
        which `__init__` returns; in the others the CPU construction raises out of it. */
    constructor (sr: int, useGpu: bool, cudaAvailable: bool, build: (int, Device) -> Outcome<Network>)
      requires InitOutcome(sr, useGpu, cudaAvailable, build).Ok?
      ensures Valid() && this.sr == sr
      ensures InitOutcome(sr, useGpu, cudaAvailable, build) == Ok((device, metric.value))
      ensures device == Cuda <==> useGpu && cudaAvailable && build(sr, Cuda).Ok?
    {
      this.sr := sr;
      device := Cpu;
      metric := None;
      new;
      if useGpu && cudaAvailable {
        match build(sr, Cuda) {
          case Ok(network) =>
            metric := Some(network);
            device := Cuda;
          case Raised(_) =>
        }
      }
      if metric.None? {
        metric := Some(build(sr, Cpu).value);
        device := Cpu;
      }
    }

    /** `DNSMOS.score`: a ValueError for anything but a one-dimensional array, raised before
        the network runs; otherwise the network's outputs 1, 2 and 3 under SIG, BAK and OVRL
        (an IndexError when it returns fewer than four values). */
    function Score(genWav: NdArray): (r: Outcome<Scores>)
      reads this
      requires Valid()
      ensures genWav.ndim != 1 ==> r == Raised(ValueError)
      ensures r.Ok? <==> genWav.ndim == 1 && metric.value.run(genWav.samples).Ok?
                         && |metric.value.run(genWav.samples).value| >= 4
      ensures r.Ok? ==> r.value.Keys == {Sig, Bak, Ovrl}
      ensures r.Ok? ==> var out := metric.value.run(genWav.samples).value;
                        r.value[Sig] == Some(out[1]) && r.value[Bak] == Some(out[2])
                        && r.value[Ovrl] == Some(out[3])
    {
      if genWav.ndim != 1 then Raised(ValueError)
      else
        var scores :- metric.value.run(genWav.samples);
        if |scores| < 4 then Raised(IndexError)
        else Ok(map[Sig := Some(scores[1]), Bak := Some(scores[2]), Ovrl := Some(scores[3])])
    }

    /** `DNSMOS.score_batch`: one result per input, in input order; an item whose `score`
        raises yields the `None` triple and the loop goes on with the next item. */
    method ScoreBatch(wavList: seq<NdArray>) returns (results: seq<Scores>)
      requires Valid()
      ensures |results| == |wavList|
      ensures forall i :: 0 <= i < |wavList| && Score(wavList[i]).Ok? ==>
                results[i] == Score(wavList[i]).value
      ensures forall i :: 0 <= i < |wavList| && Score(wavList[i]).Raised? ==>
                results[i] == NoneTriple
      ensures forall i :: 0 <= i < |results| ==> results[i].Keys == {Sig, Bak, Ovrl}
    {
      results := [];
      var idx := 0;
      while idx < |wavList|
        invariant 0 <= idx <= |wavList|
        invariant |results| == idx
        invariant forall i :: 0 <= i < idx && Score(wavList[i]).Ok? ==>
                    results[i] == Score(wavList[i]).value
        invariant forall i :: 0 <= i < idx && Score(wavList[i]).Raised? ==>
                    results[i] == NoneTriple
      {
        var result: Scores;
        match Score(wavList[idx]) {
          case Ok(scores) => result := scores;
          case Raised(_) => result := NoneTriple;
        }
        results := results + [result];
        idx := idx + 1;
      }
    }
  }
}
