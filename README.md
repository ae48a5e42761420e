# Kermesse jetons, stock and tombola: a verified model

The back end of this school-fair (kermesse) application keeps a token economy. Users hold
*jetons*. They buy jetons with money, spend them at stands, and pass them on to their
children. Tombola tickets cost 2 jetons each, and a draw hands out lots to random tickets.
Stands collect jetons and points and keep stock lines.

This project models, in Dafny, the handlers and services that carry these rules:

- the jeton ledger: pay at a stand, buy jetons, transfer jetons to a child, record a
  transaction, and summarise the ledger;
- the stock services and handlers;
- the stand handlers;
- the tombola: buy a ticket, the ticket number, the Fisher–Yates shuffle, and the draw;
- registration and child accounts;
- the `StandType` and `Role` enums.

The database is one value of type `Tables` (`database.dfy`). It holds a sequence per table,
and the row with id `k` sits at position `k - 1`. This assumes ids are dense: no row is
deleted and no id is lost to a rolled-back insert (see "## Left out").
`WellFormed` says that:

- ids match positions;
- emails are unique (the unique index on `users.email`);
- no balance is negative.

The `Store` class holds the tables in its single mutable field `tables`. Each handler is a
method on the store, and each returns `Ok(...)` or `Err(kind)`.

Store failures are an input. `fault: Option<nat>` names the numbered write that fails
(`Fails(fault, k)`); a single save takes a `saveFails: bool`.

- Where the Go handler works inside `DB.Begin()`, the method rolls back (`Store.Rollback`),
  and the contract promises that an error leaves the tables exactly as they were.
- Where the handler writes without a transaction (the draw, the counters), the contract
  states the partial state instead.

A successful call is tied to a pure function of the old tables, such as `AfterPurchase`,
`AfterTransfer`, `AfterTicket` or `AfterDraw`. Lemmas then prove what the application
promises about that function:

- conservation of jetons;
- per-type ledger totals;
- well-formedness;
- where the jetons go.

`TotalTokens` counts every balance plus every stand's collected jetons.

Randomness and the clock are parameters:

- the shuffle takes its `rand.Intn` draws as `picks`;
- the ticket number takes the `crypto/rand` sample and the nanosecond clock.

Files:

- `common.dfy`: `Option`, `Result`, the error kinds, and the fault oracle.
- `format.dfy`: decimal printing and parsing (`strconv.FormatInt`, `Atoi`, `ParseUint`)
  and their round trips.
- `models.dfy`: the stored records, the two enums and their `String()` tables, and the
  constants.
- `database.dfy`: the tables, well-formedness, sums, and the `Store` class.
- `jetons_services.dfy`, `jeton_controller.dfy`, `tombola_controller.dfy`,
  `stock_controller.dfy`, `stand_controller.dfy`, `auth_controller.dfy`: one module per Go
  file.

## Model

| member | source | states |
|---|---|---|
| JetonsServices.UpdateStandStock | internal/apis/services/jetonsServices.go:11-37 | missing stand → "stand not found"; no stock line → "no stock items"; old + change < 0 → "insufficient stock"; on success only the stand's first stock line changes, to old + change ≥ 0; every error leaves the tables unchanged |
| JetonsServices.AttributePointsToUser | internal/apis/services/jetonsServices.go:39-47 | unknown eleve → "user not found" with no change; otherwise only that eleve's PointsAccumules grows by `points` |
| JetonsServices.GetUserByID | internal/apis/services/jetonsServices.go:49-61 | Ok exactly when a user with that id exists, and then it is that user; otherwise "user not found" |
| JetonController.PayWithJetons | internal/apis/controller/jetons/jetonController.go:73-203 | each rejection in source order (bad request, stand missing, no stock line, user missing, balance < cost, stock shortfall, and at an activity stand a user id that is neither a parent nor an eleve record id) and its error; every error leaves the tables unchanged; a possible purchase with no store failure succeeds; success yields `AfterPurchase` and returns the new balance and the total cost |
| JetonController.ChargePurchase | internal/apis/controller/jetons/jetonController.go:112-196 | the transaction of a payment: any failed write or effect rolls everything back; success yields `AfterPurchase`, and the tables stay well formed |
| JetonController.WriteCharge | internal/apis/controller/jetons/jetonController.go:114-143 | the three writes of the charge (balance, stand counter, ACHAT record); a failure leaves nothing written; success yields `AfterCharge` |
| JetonController.ApplyStandEffects | internal/apis/controller/jetons/jetonController.go:145-190 | the stand-type switch: the stock decrement through UpdateStandStock, then at an activity stand 10 × quantity points to the parent record whose id equals the user id, else to the eleve with that id, else "neither parent nor student"; success yields `AfterStandEffects` |
| JetonController.PurchaseCharges | internal/apis/controller/jetons/jetonController.go:93-137 | the cost is the first stock line's price × quantity; the buyer loses it and stays ≥ 0; the stand's JetonsCollectes gains it; the ACHAT total grows by it; the stock line loses the quantity and stays ≥ 0 |
| JetonController.PurchaseConservesTokens | internal/apis/controller/jetons/jetonController.go:115-123 | a payment moves jetons from the buyer to the stand: the jetons in circulation are unchanged |
| JetonController.ChargeMovesTokens | internal/apis/controller/jetons/jetonController.go:115-123 | the charge alone leaves the circulation unchanged |
| JetonController.PurchaseKeepsWellFormed | internal/apis/controller/jetons/jetonController.go:112-196 | a payment keeps ids in place, emails unique and balances non-negative |
| JetonController.BuyJetons | internal/apis/controller/jetons/jetonController.go:219-288 | invalid request, payment-intent failure and unknown user are errors with no change; success raises the balance by exactly TokenAmount, appends one ACHAT record carrying the money Amount and the client secret, and returns the new balance and the secret |
| JetonController.BuyMintsTokens | internal/apis/controller/jetons/jetonController.go:256-275 | buying puts TokenAmount new jetons into circulation, while the ACHAT total grows by Amount |
| JetonController.FindChild | internal/apis/controller/jetons/jetonController.go:345-357 | the loop over the parent's Enfants sets the flag exactly when one of them has the child's id |
| JetonController.EnfantIffLinked | internal/apis/controller/jetons/jetonController.go:335-357 | the child's id is among the parent's Enfants exactly when that eleve's ParentID is the parent record's id |
| JetonController.AttributeJetonsToChild | internal/apis/controller/jetons/jetonController.go:305-417 | each rejection (bad request, parent user missing, child missing, no parent record, child not associated, child user missing, balance < amount) and its error; every error leaves the tables unchanged; success yields `AfterTransfer` and returns both new balances |
| JetonController.SaveTransfer | internal/apis/controller/jetons/jetonController.go:374-410 | the four writes of a transfer; any failure rolls back; success yields `AfterTransfer` |
| JetonController.TransferConservesTokens | internal/apis/controller/jetons/jetonController.go:374-402 | between two users, the parent loses the amount, the child gains it, circulation is unchanged, and the TRANSFERT total drops by the amount (the record holds −amount) |
| JetonController.SelfTransferMints | internal/apis/controller/jetons/jetonController.go:374-388 | when the child's user is the parent, the second save wins: the balance and the circulation both grow by the amount |
| JetonController.TransferKeepsWellFormed | internal/apis/controller/jetons/jetonController.go:374-402 | a transfer the parent can afford keeps the tables well formed |
| JetonController.CreateJetonTransaction | internal/apis/controller/jetons/jetonController.go:33-57 | a missing required field → error and no change; otherwise exactly one record is appended with the given fields, and no balance moves |
| JetonController.GetTransactionSummary | internal/apis/controller/jetons/jetonController.go:484-502 | an error exactly when the ledger is empty (NULL sums); otherwise each of the ACHAT, UTILISATION and TRANSFERT totals is the sum of Montant over the records of that type |
| JetonController.MontantOfKindIsSumOfRecords | internal/apis/controller/jetons/jetonController.go:491-496 | each per-type total is the sum of Montant over the records of that type |
| JetonController.MontantOfKindAppend | internal/apis/controller/jetons/jetonController.go:491-496 | the per-type totals add up over a concatenation of ledgers |
| JetonController.MontantOfKindPush | internal/apis/controller/jetons/jetonController.go:491-496 | a new record changes only its own type's total, by its Montant |
| TombolaController.GenerateTicketNumber | internal/apis/controller/tombola/tombolaController.go:128-143 | a random-source failure → error; otherwise the number parses back to the clock value and 1000 + sample |
| TombolaController.TicketNumberRoundTrip | internal/apis/controller/tombola/tombolaController.go:133-142 | "T-" + timestamp + "-" + a four-digit random part reads back as the same pair |
| TombolaController.TicketNumberInjective | internal/apis/controller/tombola/tombolaController.go:133-142 | different (timestamp, random) pairs give different ticket numbers |
| TombolaController.BuyTicket | internal/apis/controller/tombola/tombolaController.go:160-248 | bad tombola id, missing user id, unknown user, balance < 2, and ticket-number failure are each an error with no change; the tombola's existence is not checked; success yields `AfterTicket` |
| TombolaController.SaveTicket | internal/apis/controller/tombola/tombolaController.go:196-241 | the four writes of a ticket purchase; any failure rolls back; success yields `AfterTicket` and returns the ticket and the new balance |
| TombolaController.TicketBurnsPrice | internal/apis/controller/tombola/tombolaController.go:175-229 | a ticket debits exactly 2 jetons, which leave circulation; the ACHAT total grows by 2; the tombola's pool gains the non-winning ticket |
| TombolaController.TicketKeepsWellFormed | internal/apis/controller/tombola/tombolaController.go:184-221 | with a balance ≥ 2, the purchase keeps balances non-negative (a balance of 2 ends at 0) and the tables well formed |
| TombolaController.ShuffleTickets | internal/apis/controller/tombola/tombolaController.go:473-479 | the array ends as the Fisher–Yates shuffle of its old contents for the given picks (j ≤ i at each step), with the same multiset |
| TombolaController.ShufflePermutes | internal/apis/controller/tombola/tombolaController.go:473-479 | the shuffle of any sequence is a permutation of it |
| TombolaController.TicketsOfIncreasing | internal/apis/controller/tombola/tombolaController.go:392 | the preloaded tickets come in increasing id order, so their ids are distinct |
| TombolaController.DrawPicksDistinctTickets | internal/apis/controller/tombola/tombolaController.go:430-444 | a draw has min(#tickets, #lots) winners; winner k gets lot k of the tombola; no ticket wins twice; each winner owns the ticket that won |
| TombolaController.LotsOfIncreasing | internal/apis/controller/tombola/tombolaController.go:392 | the preloaded lots come in increasing id order |
| TombolaController.DrawAwardsDistinctLots | internal/apis/controller/tombola/tombolaController.go:430-444 | no lot is handed out twice in one draw |
| TombolaController.MarkWonEffect | internal/apis/controller/tombola/tombolaController.go:462-466 | every selected ticket ends with EstGagnant = true; every other ticket row is unchanged |
| TombolaController.MarkWonKeepsKeyed | internal/apis/controller/tombola/tombolaController.go:462-466 | marking winners moves no row |
| TombolaController.DrawKeepsWellFormed | internal/apis/controller/tombola/tombolaController.go:430-467 | after any prefix of the draw, the tables are still well formed |
| TombolaController.AwardLots | internal/apis/controller/tombola/tombolaController.go:430-469 | the loop over the lots creates winner k and marks its ticket; with no failure it returns all min(#tickets, #lots) winners; a failure at write 2k (winner k) or 2k + 1 (its ticket) is not rolled back: the winners stored before it and the k tickets marked before it stay |
| TombolaController.PerformDrawLogic | internal/apis/controller/tombola/tombolaController.go:422-470 | shuffles the pool in place, then awards the lots over the shuffled pool, with the same outcome as AwardLots |
| TombolaController.RunDraw | internal/apis/controller/tombola/tombolaController.go:407-419 | the draw over a tombola's pool and lots: success yields `AfterDraw` with the winners of `DrawOf`; a failure leaves the stored prefix |
| TombolaController.PerformDraw | internal/apis/controller/tombola/tombolaController.go:389-420 | unknown tombola, no tickets and no lots are each an error with no change; success returns the winners of the shuffled draw (at least one) and marks their tickets; a store failure leaves the partial winners |
| StockController.AdjustStock | internal/apis/controller/stock/stockController.go:158-186 | unknown stock → "Stock not found" before the body is read; an undecodable body → invalid request; old + delta < 0 → rejected with no change; success yields `AfterAdjust`, with quantity old + delta ≥ 0 |
| StockController.AdjustAdds | internal/apis/controller/stock/stockController.go:174 | two adjustments add up, and an adjustment by −delta undoes one by delta |
| StockController.CreateStock | internal/apis/controller/stock/stockController.go:27-48 | a non-integer path id or an undecodable body → error with no change; otherwise one stock line is appended whose StandID is the path id (as `uint`), whatever the body said |
| StockController.CreateStockStandId | internal/apis/controller/stock/stockController.go:28-40 | the stand id is `uint(Atoi(param))`: the value itself when it is ≥ 0, and wrapped to 2^64 + value when it is negative |
| StockController.CreateStockKeepsDecimalId | internal/apis/controller/stock/stockController.go:28-40 | a stand id written in decimal reaches the stock line unchanged |
| StandController.StringToTypeStand | internal/apis/controller/stands/standController.go:16-27 | Ok exactly for "NOURRITURE", "BOISSON" and "ACTIVITES", and then `String()` gives the input back; otherwise the error "type invalide: " + s |
| StandController.StandTypeRoundTrip | internal/models/stand.go:5-13 | `stringToTypeStand(t.String()) == t` for the three valid values |
| StandController.StandTypeStringInjective | internal/models/stand.go:11-13 | `String()` is injective on 0..2 |
| StandController.CreateStand | internal/apis/controller/stands/standController.go:42-82 | a body that does not bind → invalid request; an invalid type → the parser's error before any insert; success appends the stand with the parsed type and returns it with the type's name |
| StandController.CollectJetons | internal/apis/controller/stands/standController.go:214-237 | undecodable body → invalid request; unknown stand → not found; otherwise JetonsCollectes + Montant (no sign check) is returned, and the tables hold it exactly when the ignored save succeeded |
| StandController.CollectShiftsCirculation | internal/apis/controller/stands/standController.go:230 | collecting debits nobody: the circulation changes by exactly Montant |
| StandController.AttributePoints | internal/apis/controller/stands/standController.go:253-281 | undecodable body → invalid request; unknown stand → not found; a non-activity stand → rejected with PointsAttribues unchanged; otherwise PointsAttribues grows by the points |
| StandController.PointsKeepCirculation | internal/apis/controller/stands/standController.go:274 | points move no jetons: the balances and the circulation are unchanged |
| StandController.ManageStock | internal/apis/controller/stands/standController.go:171-198 | undecodable body → invalid request; a path id that is not a uint32 → "Invalid stand ID"; otherwise one stock line is appended with the parsed stand id, and the answer is true |
| AuthController.StringToRole | internal/apis/controller/auth/authController.go:61-76 | Ok exactly for the five role names, and then `String()` gives the input back; otherwise the error "rôle invalide: " + s |
| AuthController.RoleRoundTrip | internal/models/user.go:5-15 | `stringToRole(r.String()) == r` for the five valid roles |
| AuthController.RoleStringInjective | internal/models/user.go:13-15 | `String()` is injective on 0..4 |
| AuthController.Register | internal/apis/controller/auth/authController.go:90-194 | a request that does not bind → invalid; an email in use → rejected before anything is created; an invalid role → rejected with no user; a password bcrypt refuses → "Failed to process password" with no user; a failure of the organisateur or stand-keeper record falls through to a commit that fails, leaving nothing; success yields `AfterRegister` and returns the new id |
| AuthController.RegisterCreatesRoleRecord | internal/apis/controller/auth/authController.go:130-176 | exactly one user with zero jetons and the requested role is added; ELEVE adds an eleve linked to it, PARENT adds a parent, ORGANISATEUR and TENEUR_STAND add their record linked to it, and ADMIN adds none |
| AuthController.RegisterKeepsWellFormed | internal/apis/controller/auth/authController.go:99-130 | registering a free email keeps emails unique and the tables well formed |
| AuthController.AddChildToParent | internal/apis/controller/auth/authController.go:202-289 | no authenticated user, a body that does not bind, a password bcrypt refuses (before the transaction), no parent record, an invalid role, and a taken email each give an error with nothing created; success yields `AfterAddChild` |
| AuthController.AddChildAppendsEnfant | internal/apis/controller/auth/authController.go:257-280 | the parent's Enfants gain exactly the new eleve, which belongs to the new child user; no jetons appear |
| AuthController.AddChildKeepsWellFormed | internal/apis/controller/auth/authController.go:257-280 | adding a child with a free email keeps the tables well formed |
| Format.IntRoundTrip | internal/apis/controller/tombola/tombolaController.go:133 | every int64 printed in decimal parses back to itself |
| Format.Uint32RoundTrip | internal/apis/controller/tombola/tombolaController.go:161 | every uint32 printed in decimal parses back to itself |
| Format.DecimalRoundTrip | internal/apis/controller/tombola/tombolaController.go:142 | the digits of a natural number printed in decimal read back as the number |

## Left out

- The payment provider: `BuyJetons` receives the payment intent's outcome as a parameter (None when creating it failed). Stripe and the payment webhook are not part of this model.
- HTTP: status codes, response messages and JSON framing are not modelled. Each error is a kind of `Error`. A body that does not decode or bind arrives as `None`, email-format validation included.
- Login and JWTs, the websocket messaging, the kermesse plan files, and the plain CRUD handlers are not part of this model.
- Integer widths: balances, quantities and costs are unbounded. The `int64` / `int` overflow of `price × quantity`, and of the counters, is not modelled. The uint32 and int64 parsing limits of the path ids, and the `uint` wrap in `CreateStock`, are modelled.
- Lot `Valeur` (a float) plays no part in any rule and is not kept.
- The clock and the random sources are parameters: `now`, the ticket sample, and the shuffle's `picks` (constrained to `j ≤ i`). Their uniformity is not modelled.
- Ids are dense: the row with id `k` is the `k`-th row. The model does not capture deleted rows (users and lots can be hard-deleted elsewhere in the application), nor the ids that PostgreSQL or MySQL sequences use up on inserts that are rolled back. So the `|table| + 1` ids the contracts give new rows (the user `Register` returns, ledger records, tickets, gagnants, stock lines), and the position lookups by id, hold only under this assumption.
- bcrypt itself is not modelled: `Register` and `AddChildToParent` take its outcome as `hashFails` (it refuses passwords over 72 bytes, for instance). The hash is not stored in the model.
- Concurrency: each handler is modelled as running alone against the store, one request at a time. In the code, PayWithJetons and BuyTicket read the buyer outside their transaction (jetonController.go line 100, tombolaController.go line 179). They then save that possibly stale row in full. BuyJetons and AttributeJetonsToChild read inside theirs, but take no row lock. So two interleaved requests can both pass the balance check, and one debit or credit can overwrite the other. The conservation, balance, ledger and well-formedness results (`PurchaseCharges`, `PurchaseConservesTokens`, `TicketBurnsPrice`, `TransferConservesTokens`, `BuyMintsTokens`, the `…KeepsWellFormed` lemmas) hold only under that one-request-at-a-time assumption.
- Reads never fail; only the writes and commits take the fault oracle. Foreign-key refusals are folded into that oracle.
- GORM returns preloaded rows and `First` in primary-key order, and the model assumes the same.
- PerformDraw, CollectJetons, AttributePoints, AdjustStock: the path id is taken as an already parsed natural number. A non-numeric id string given to GORM's inline condition is not modelled.
- CreateStock, ManageStock: the id in the body is ignored, and the new line gets the next auto-increment id. Negative quantities in the body are accepted, as in the code.
- PerformDraw: the "no winners" branch cannot be reached once there are tickets and lots, so it is omitted. The reload of the winner's relations (`Preload(...).First`) changes nothing; its failure leaves the same state as a failed ticket save (write 2k + 1), so it is folded into that write.
- AwardLots: the ticket save writes the row at the ticket's id. The model's `MarkWon` skips an id outside the table, which cannot happen for tickets loaded from the table.
- AddChildToParent: the `Enfants` association append writes the link that the eleve's ParentID already holds, so it is modelled as a write that can fail and changes nothing else.
- Register: after the organisateur or stand-keeper failure, the handler writes two JSON answers. The model gives the outcome of the failed commit.
- PayWithJetons: the points go to the parent or eleve whose record id equals the user id, as in the code, not to the user's own record. `models.Parent` as given has no `PointsAccumules` field; the model gives parents the counter that the handler saves.
- GetTransactionSummary: on an empty ledger the SQL sums are NULL, and scanning them into integers fails, so the model answers with an error there rather than zeros.
