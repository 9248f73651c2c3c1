/** Small value types shared by the DAS4Whales modules. */
module Wrappers {
  /** A result that is either a value or the error the program would raise. */
  datatype Result<+T, +E> = Ok(value: T) | Err(error: E)
}

/** The acquisition data model: what the ingestion layer hands to the signal-processing core. */
module Acquisition {
  /** The `selected_channels` triple [start, stop, step] over raw channel indices. */
  datatype ChannelSelection = ChannelSelection(start: int, stop: int, step: int)

  /** The metadata dictionary: sampling rate fs (Hz), channel spacing dx (m), channel and sample
      counts, refractive index n, gauge length (m) and the strain-rate to strain scale factor. */
  datatype Metadata = Metadata(fs: real, dx: real, nx: nat, ns: nat, n: real, gaugeLength: real, scaleFactor: real)
}

/** The transcendental functions the mask designers call, as parameters with their range facts. */
module Transcendental {
  /** `sinHalfPi(t)` stands for sin(pi/2 * t) and `cosHalfPi(t)` for cos(pi/2 * t): every call of
      numpy's sin or cos in the designers has the form sin(0.5 * pi * t) or cos(0.5 * pi * t).
      Their values are not computed here; `Valid` lists the facts about them the proofs use. */
  datatype Trig = Trig(sinHalfPi: real -> real, cosHalfPi: real -> real) {
    ghost predicate Valid() {
      && (forall t :: 0.0 <= t <= 1.0 ==> 0.0 <= sinHalfPi(t) <= 1.0)
      && (forall t :: -1.0 <= t <= 0.0 ==> -1.0 <= sinHalfPi(t) <= 0.0)
      && (forall t :: -1.0 <= t <= 0.0 ==> 0.0 <= cosHalfPi(t) <= 1.0)
      && cosHalfPi(0.0) == 1.0
    }
  }
}
