/** Shared vocabulary of the evaluation pipelines: optional values, the outcome of a call
    that may raise, and waveforms. */
module Common {

  /** Python's `None` or a value. */
  datatype Option<+T> = None | Some(value: T)

  /** The exception classes the modelled code raises or that a collaborator may raise. */
  datatype Error = ValueError | KeyError | IndexError | ZeroDivisionError | CollaboratorError

  /** The result of a Python call: it returns a value or raises an exception. Failure-compatible,
      so `var x :- call; ...` propagates the exception like an uncaught `raise`. */
  datatype Outcome<+T> = Ok(value: T) | Raised(error: Error) {
    predicate IsFailure() { Raised? }

    function PropagateFailure<U>(): Outcome<U>
      requires Raised?
    {
      Raised(error)
    }

    function Extract(): T
      requires Ok?
    {
      value
    }
  }

  /** A mono waveform as loaded at the configured sampling rate: one sample per entry. */
  type Wave = seq<real>

  /** `name.endswith(".wav")`. */
  predicate EndsWithWav(name: string)
  {
    |name| >= 4 && name[|name| - 4..] == ".wav"
  }

  /** Python's `abs` on reals. */
  function Abs(x: real): (r: real)
    ensures r >= 0.0 && (r == x || r == -x)
  {
    if x < 0.0 then -x else x
  }
}
