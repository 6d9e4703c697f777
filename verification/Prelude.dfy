/** Results, and the errors of the protocol core. */
module Prelude {

  datatype Option<+T> = None | Some(value: T)

  datatype Result<+T> = Success(value: T) | Failure(error: Error)

  datatype Error =
    | UnexpectedRound(expected: int, got: int)
    | InvalidPartyCount(expected: int, got: int)
    | Backend(fault: Fault)

  /** The reasons a `Backend` error carries, one per message in the source. */
  datatype Fault =
    | ShareDecode
    | EnvelopeDecode
    | EnvelopeEncode
    | DuplicateParty
    | NotInvertible
    | WrongWalletKey
    | KeyLength
    | BadPartyIndex
    | SurvivorsNotDistinct
    | NotASurvivor
    | ShareOfAnotherParty
    | WrongAddressee
    | WrongSender
    | NoSuchRound
    | OutOfOrder
    | MissingProof
    | MissingMul
    | PhaseFailed
    | KeyWouldChange
    | KeysDisagree
    | NoParties
    | OwnCounterparty
    | MalformedSignature
}
