/** Shared result shapes for a model of JavaScript code in which a call may
    throw (or reject its promise) after it has already changed some state. */
module Outcomes {

  datatype Option<+T> = None | Some(value: T)

  /** Why a call threw or rejected. One constructor per distinct error the
      modelled code raises, plus the platform errors it can run into. */
  datatype Error =
    | Disposed              // the wrapper was disposed
    | NotInitialized        // initialize() has not completed
    | NoBuffer              // no content buffer loaded
    | InvalidDuration       // duration not finite and positive
    | BufferModeOnly        // buffer-mode call after bindSource()
    | NullArgument          // a required argument was null or undefined
    | ChannelMismatch       // buffer channel count differs from (order+1)^2
    | RendererMissing       // initialize() found no renderer for the order
    | ContextFailed         // the audio context could not be resumed
    | InvalidChannelMap     // renderer config: channel map not a 4-element array
    | InvalidHrirList       // renderer config: wrong number of HRIR paths
    | TooManyChannels       // merge: running channel total above 32
    | LengthMismatch        // merge: buffer lengths differ
    | SampleRateMismatch    // merge: sample rates differ
    | LoadRejected          // the chunk loader's promise rejected
    | TypeError             // platform TypeError (property of null, bad argument)
    | RangeError            // platform RangeError (negative start offset)
    | IndexSizeError        // platform IndexSizeError (connect to a missing input)
    | InvalidStateError     // platform InvalidStateError (stop() before start())
    | NotSupportedError     // platform NotSupportedError (createBuffer beyond the engine's limits)

  /** The state after a call together with the error it threw, if any. */
  datatype Step<+S> = Step(state: S, thrown: Option<Error>) {
    predicate Threw() { thrown.Some? }
  }

  function Ok<S>(s: S): Step<S> { Step(s, None) }

  function Fail<S>(s: S, e: Error): Step<S> { Step(s, Some(e)) }

  /** A value-returning call: either the value or the error it threw. */
  datatype Result<+T> = Value(value: T) | Throws(error: Error)
}
