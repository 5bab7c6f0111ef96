/**
 * Oblivious-transfer values exchanged by the TinyTables preprocessing: the
 * sender's pair of bits, the receiver's selection bit, and the ideal 1-out-of-2
 * transfer that a correct OT extension implements.
 */
module OT {

  /** A sender's input to one OT: the receiver obtains `x0` or `x1`. */
  datatype OTInput = OTInput(x0: bool, x1: bool)

  /** A receiver's selection bit for one OT. */
  datatype OTSigma = OTSigma(sigma: bool)

  /** What an ideal OT delivers to the receiver. */
  function Select(input: OTInput, sigma: bool): bool
  {
    if sigma then input.x1 else input.x0
  }

  /** One ideal OT per position of two equally long batches. */
  function IdealTransfer(inputs: seq<OTInput>, sigmas: seq<OTSigma>): (outputs: seq<bool>)
    requires |inputs| == |sigmas|
    ensures |outputs| == |inputs|
    ensures forall i :: 0 <= i < |inputs| ==> outputs[i] == Select(inputs[i], sigmas[i].sigma)
  {
    seq(|inputs|, i requires 0 <= i < |inputs| => Select(inputs[i], sigmas[i].sigma))
  }
}
