/**
 * The small part of the MPC framework's protocol contract that the modelled
 * protocols use: the status an evaluation step returns and the exception
 * kinds they raise.
 */
module Framework {

  /** What `evaluate(round, ...)` reports to the engine. */
  datatype EvaluationStatus = IsDone | HasMoreRounds

  /** The unchecked exceptions raised by the modelled protocols. */
  datatype ProtocolError =
    | MPCException(message: string)         // a round the protocol does not define
    | ArithmeticException(message: string)  // BigInteger.modInverse on bad input
}
