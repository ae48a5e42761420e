/** Option, Result and the error kinds the handlers answer with. */
module Common {

  datatype Option<+T> = None | Some(value: T)

  /** What a handler answers: a value, or one of the error kinds below. */
  datatype Result<+T> = Ok(value: T) | Err(error: Error)

  /** One constructor per distinct error answer of the modelled handlers. */
  datatype Error =
    | InvalidRequest                  // request body or path parameter rejected by binding/parsing
    | InvalidId                       // "Invalid tombola ID" / "Invalid stand ID": a path id that is no uint32
    | Unauthenticated                 // no authenticated user id in the request context
    | StandNotFound
    | NoStockForStand
    | UserNotFound
    | InsufficientJetons
    | InsufficientStock
    | StockUpdateFailed(cause: Error) // "Failed to update stock: <cause>"
    | NotParentNorStudent
    | StockNotFound
    | NegativeStock
    | ParentNotFound
    | ChildNotFound
    | RelationshipNotFound
    | ChildNotAssociated
    | ChildUserNotFound
    | TombolaNotFound
    | NoTickets
    | NoLots
    | TicketNumberFailed
    | PaymentIntentFailed
    | PasswordHashFailed              // "Failed to process password": bcrypt refused the password
    | NotActivityStand
    | InvalidType(message: string)    // "type invalide: <s>"
    | InvalidRole(message: string)    // "rôle invalide: <s>"
    | EmailInUse
    | EmptyLedger                     // SUM over no rows is NULL and cannot be scanned into an int
    | StoreFailure                    // a store write or commit failed

  /** The fault oracle: `Some(k)` means the k-th store write of the request fails. */
  predicate Fails(fault: Option<nat>, k: nat) {
    fault == Some(k)
  }
}
