/** Absent values and the error conditions of the card engine. */
module Results {

  /** A reference that may be null: a card that was not drawn, dealt or found. */
  datatype Option<+T> = None | Some(value: T)

  /** The three failures the engine raises as exceptions. */
  datatype Error =
    | InvalidCard        // a card number or suit/rank pair outside the valid range
    | InvalidHandIndex   // a hand index above the number of players
    | PileNotPristine    // the pile lost or duplicated a card before a deal

  datatype Result<+T> = Ok(value: T) | Err(error: Error)

  /** The outcome of an operation that returns nothing on success. */
  datatype Outcome = Pass | Fail(error: Error)
}
