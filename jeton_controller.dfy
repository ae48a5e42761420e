/**
 * The jeton ledger handlers: paying at a stand, buying jetons, a parent's transfer to a
 * child, a manual ledger entry, and the per-type summary of the ledger.
 *
 * Store writes are numbered per handler in source order; `fault == Some(k)` makes the
 * k-th one fail. A handler that runs in a transaction rolls every earlier write back.
 */
module JetonController {
  import opened Common
  import opened Format
  import opened Models
  import opened Database
  import opened JetonsServices

  datatype PayReceipt = PayReceipt(newBalance: int, totalCost: int)
  datatype BuyReceipt = BuyReceipt(newBalance: int, paymentId: string)
  datatype TransferReceipt = TransferReceipt(parentNewBalance: int, childNewBalance: int)
  datatype TransactionSummary = TransactionSummary(totalAchats: int, totalUtilisations: int, totalTransferts: int)

  /** "Achat de %d %s au stand %s (ID: %d)" */
  function PurchaseDescription(quantity: int, nomProduit: string, standNom: string, standId: nat): string {
    Join(["Achat de ", IntToDecimal(quantity), " ", nomProduit, " au stand ", standNom,
          " (ID: ", IntToDecimal(standId), ")"])
  }

  /** "Achat de %d jetons" */
  function TokenPurchaseDescription(tokenAmount: int): string {
    Join(["Achat de ", IntToDecimal(tokenAmount), " jetons"])
  }

  /** "Transfert de %d jetons à l'enfant" */
  function TransferDescription(amount: int): string {
    Join(["Transfert de ", IntToDecimal(amount), " jetons à l'enfant"])
  }

  /** The stand exists and has at least one stock line, so it can be priced. */
  predicate Priceable(t: Tables, standId: nat) {
    0 < standId <= |t.stands| && FirstStock(t.stocks, standId).Some?
  }

  /** Cost of a purchase: the first stock line's unit price times the quantity. */
  function TotalCost(t: Tables, standId: nat, quantity: int): int
    requires Priceable(t, standId)
  {
    t.stocks[FirstStock(t.stocks, standId).value].prixEnJetons * quantity
  }

  /** Stand types whose purchases decrement stock: the three named ones. */
  predicate KeepsStock(standType: StandType) {
    standType == StandNourriture || standType == StandBoisson || standType == StandActivite
  }

  /**
   * What the stand type asks of a payment once it is charged: the stock covers the quantity
   * (for the three named types) and, at an activity stand, the buyer's id is also a parent
   * or an eleve record id.
   */
  predicate EffectsPossible(t: Tables, userId: nat, standId: nat, quantity: int)
    requires Priceable(t, standId)
  {
    && (KeepsStock(t.stands[standId - 1].standType) ==>
          quantity <= t.stocks[FirstStock(t.stocks, standId).value].quantite)
    && (t.stands[standId - 1].standType == StandActivite ==>
          0 < userId && (userId <= |t.parents| || userId <= |t.eleves|))
  }

  /** Everything a payment needs to go through. */
  predicate CanPurchase(t: Tables, userId: nat, standId: nat, quantity: int) {
    && 0 < userId <= |t.users| && 0 < quantity && Priceable(t, standId)
    && TotalCost(t, standId, quantity) <= t.users[userId - 1].soldeJetons
    && EffectsPossible(t, userId, standId, quantity)
  }

  /** Moves `cost` jetons from user row i's balance to stand row j's counter and appends `record` to the ledger. */
  function Charge(t: Tables, i: nat, j: nat, cost: int, record: JetonTransaction): Tables
    requires i < |t.users| && j < |t.stands|
  {
    t.(users := t.users[i := t.users[i].(soldeJetons := t.users[i].soldeJetons - cost)],
       stands := t.stands[j := t.stands[j].(jetonsCollectes := t.stands[j].jetonsCollectes + cost)],
       transactions := t.transactions + [record])
  }

  /** The ACHAT record of a payment. */
  function PurchaseRecord(t: Tables, userId: nat, standId: nat, quantity: int): JetonTransaction
    requires Priceable(t, standId)
  {
    JetonTransaction(
      |t.transactions| + 1, userId, TotalCost(t, standId, quantity), TransactionTypeAchat,
      PurchaseDescription(quantity, t.stocks[FirstStock(t.stocks, standId).value].nomProduit,
                          t.stands[standId - 1].nom, standId),
      Some(standId), None, "")
  }

  /** The charge: the buyer's balance, the stand's counter and the ACHAT record. */
  function AfterCharge(t: Tables, userId: nat, standId: nat, quantity: int): (after: Tables)
    requires 0 < userId <= |t.users| && Priceable(t, standId)
    ensures Priceable(after, standId) && TotalCost(after, standId, quantity) == TotalCost(t, standId, quantity)
    ensures after.stands[standId - 1].standType == t.stands[standId - 1].standType
    ensures after.stocks == t.stocks && after.parents == t.parents && after.eleves == t.eleves
  {
    Charge(t, userId - 1, standId - 1, TotalCost(t, standId, quantity), PurchaseRecord(t, userId, standId, quantity))
  }

  /** The switch on the stand type: stock decrement, and loyalty points at an activity stand. */
  function AfterStandEffects(t: Tables, userId: nat, standId: nat, quantity: int): Tables
    requires Priceable(t, standId) && EffectsPossible(t, userId, standId, quantity)
  {
    var k := FirstStock(t.stocks, standId).value;
    var standType := t.stands[standId - 1].standType;
    var points := PointsPerUnit * quantity;
    t.(stocks :=
         if KeepsStock(standType) then t.stocks[k := t.stocks[k].(quantite := t.stocks[k].quantite - quantity)]
         else t.stocks,
       parents :=
         if standType == StandActivite && userId <= |t.parents|
         then t.parents[userId - 1 := t.parents[userId - 1].(
                pointsAccumules := t.parents[userId - 1].pointsAccumules + points)]
         else t.parents,
       eleves :=
         if standType == StandActivite && userId > |t.parents|
         then t.eleves[userId - 1 := t.eleves[userId - 1].(
                pointsAccumules := t.eleves[userId - 1].pointsAccumules + points)]
         else t.eleves)
  }

  /** The tables after a successful payment. */
  function AfterPurchase(t: Tables, userId: nat, standId: nat, quantity: int): Tables
    requires CanPurchase(t, userId, standId, quantity)
  {
    AfterStandEffects(AfterCharge(t, userId, standId, quantity), userId, standId, quantity)
  }

  /** A payment keeps ids in place, emails unique and, since the buyer could afford it, balances non-negative. */
  lemma PurchaseKeepsWellFormed(t: Tables, userId: nat, standId: nat, quantity: int)
    requires WellFormed(t) && CanPurchase(t, userId, standId, quantity)
    ensures WellFormed(AfterPurchase(t, userId, standId, quantity))
  {
    var charged := AfterCharge(t, userId, standId, quantity);
    assert WellFormed(charged);
    var after := AfterStandEffects(charged, userId, standId, quantity);
    assert after == charged.(stocks := after.stocks, parents := after.parents, eleves := after.eleves);
  }

  /** Jetons move from the buyer's balance to the stand's counter: none appear or vanish. */
  lemma PurchaseConservesTokens(t: Tables, userId: nat, standId: nat, quantity: int)
    requires CanPurchase(t, userId, standId, quantity)
    ensures TotalTokens(AfterPurchase(t, userId, standId, quantity)) == TotalTokens(t)
  {
    var charged := AfterCharge(t, userId, standId, quantity);
    ChargeConservesTokens(t, userId, standId, quantity);
    StandEffectsKeepTokens(charged, userId, standId, quantity);
  }

  lemma ChargeConservesTokens(t: Tables, userId: nat, standId: nat, quantity: int)
    requires 0 < userId <= |t.users| && Priceable(t, standId)
    ensures TotalTokens(AfterCharge(t, userId, standId, quantity)) == TotalTokens(t)
  {
    ChargeMovesTokens(t, userId - 1, standId - 1, TotalCost(t, standId, quantity), PurchaseRecord(t, userId, standId, quantity));
  }

  /** A charge moves jetons from a balance to a stand's counter: the circulation is unchanged. */
  lemma ChargeMovesTokens(t: Tables, i: nat, j: nat, cost: int, record: JetonTransaction)
    requires i < |t.users| && j < |t.stands|
    ensures TotalTokens(Charge(t, i, j, cost, record)) == TotalTokens(t)
  {
    var after := Charge(t, i, j, cost, record);
    assert after.users == t.users[i := t.users[i].(soldeJetons := t.users[i].soldeJetons - cost)];
    assert after.stands == t.stands[j := t.stands[j].(jetonsCollectes := t.stands[j].jetonsCollectes + cost)];
    MoveToStand(t, i, j, cost);
  }

  /** Moving d jetons from user i's balance to stand j's counter leaves the circulation unchanged. */
  lemma MoveToStand(t: Tables, i: nat, j: nat, d: int)
    requires i < |t.users| && j < |t.stands|
    ensures var users := t.users[i := t.users[i].(soldeJetons := t.users[i].soldeJetons - d)];
            var stands := t.stands[j := t.stands[j].(jetonsCollectes := t.stands[j].jetonsCollectes + d)];
            Sum(Balances(users)) + Sum(Collected(stands)) == TotalTokens(t)
  {
    BalanceChange(t.users, i, t.users[i].(soldeJetons := t.users[i].soldeJetons - d));
    CollectedChange(t.stands, j, t.stands[j].(jetonsCollectes := t.stands[j].jetonsCollectes + d));
  }

  lemma StandEffectsKeepTokens(t: Tables, userId: nat, standId: nat, quantity: int)
    requires Priceable(t, standId) && EffectsPossible(t, userId, standId, quantity)
    ensures TotalTokens(AfterStandEffects(t, userId, standId, quantity)) == TotalTokens(t)
  {
    var after := AfterStandEffects(t, userId, standId, quantity);
    assert after.users == t.users && after.stands == t.stands;
  }

  /**
   * The buyer pays the unit price times the quantity, the stand collects exactly that,
   * the ACHAT total grows by it, and the stock line loses the quantity without going negative.
   */
  lemma PurchaseCharges(t: Tables, userId: nat, standId: nat, quantity: int)
    requires CanPurchase(t, userId, standId, quantity)
    ensures var after, cost := AfterPurchase(t, userId, standId, quantity), TotalCost(t, standId, quantity);
            var k := FirstStock(t.stocks, standId).value;
            && cost == t.stocks[k].prixEnJetons * quantity
            && after.users[userId - 1].soldeJetons == t.users[userId - 1].soldeJetons - cost >= 0
            && after.stands[standId - 1].jetonsCollectes == t.stands[standId - 1].jetonsCollectes + cost
            && MontantOfKind(after.transactions, TransactionTypeAchat)
                 == MontantOfKind(t.transactions, TransactionTypeAchat) + cost
            && (KeepsStock(t.stands[standId - 1].standType) ==>
                  after.stocks[k].quantite == t.stocks[k].quantite - quantity >= 0)
  {
    var charged := AfterCharge(t, userId, standId, quantity);
    MontantOfKindPush(t.transactions, charged.transactions[|t.transactions|], TransactionTypeAchat);
  }

  /**
   * The switch on the stand type inside the payment's transaction. Writes: 3 stock line
   * (inside UpdateStandStock), 4 loyalty points. On an error the caller rolls back.
   */
  method ApplyStandEffects(db: Store, userId: nat, standId: nat, quantity: int, fault: Option<nat>)
    returns (r: Result<()>)
    requires Priceable(db.tables, standId) && db.tables.stands[standId - 1].id == standId
    modifies db
    ensures (KeepsStock(old(db.tables).stands[standId - 1].standType)
             && old(db.tables).stocks[FirstStock(old(db.tables).stocks, standId).value].quantite < quantity) ==>
              r == Err(StockUpdateFailed(InsufficientStock))
    // at an activity stand, a buyer whose id is neither a parent nor an eleve record id
    ensures (old(db.tables).stands[standId - 1].standType == StandActivite
             && quantity <= old(db.tables).stocks[FirstStock(old(db.tables).stocks, standId).value].quantite
             && !Fails(fault, 3)
             && !(0 < userId && (userId <= |old(db.tables.parents)| || userId <= |old(db.tables.eleves)|))) ==>
              r == Err(NotParentNorStudent)
    ensures r.Ok? ==> EffectsPossible(old(db.tables), userId, standId, quantity)
    ensures EffectsPossible(old(db.tables), userId, standId, quantity) && fault.None? ==> r.Ok?
    ensures r.Ok? ==>
              && EffectsPossible(old(db.tables), userId, standId, quantity)
              && db.tables == AfterStandEffects(old(db.tables), userId, standId, quantity)
  {
    var stand := db.tables.stands[standId - 1];
    if stand.standType == StandNourriture || stand.standType == StandBoisson {
      var updated := UpdateStandStock(db, stand.id, -quantity, Fails(fault, 3));
      if updated.Err? {
        return Err(StockUpdateFailed(updated.error));
      }
    } else if stand.standType == StandActivite {
      var updated := UpdateStandStock(db, stand.id, -quantity, Fails(fault, 3));
      if updated.Err? {
        return Err(StockUpdateFailed(updated.error));
      }
      var totalPoints := PointsPerUnit * quantity;
      // the parent lookup compares the parent record's id with the user id
      if 0 < userId <= |db.tables.parents| {
        var parent := db.tables.parents[userId - 1];
        parent := parent.(pointsAccumules := parent.pointsAccumules + totalPoints);
        if Fails(fault, 4) {
          return Err(StoreFailure);
        }
        db.tables := db.tables.(parents := db.tables.parents[userId - 1 := parent]);
      } else if 0 < userId <= |db.tables.eleves| {
        var eleve := db.tables.eleves[userId - 1];
        eleve := eleve.(pointsAccumules := eleve.pointsAccumules + totalPoints);
        if Fails(fault, 4) {
          return Err(StoreFailure);
        }
        db.tables := db.tables.(eleves := db.tables.eleves[userId - 1 := eleve]);
      } else {
        return Err(NotParentNorStudent);
      }
    }
    r := Ok(());
  }

  /**
   * The charge inside the payment's transaction. Writes: 0 buyer balance, 1 stand counter,
   * 2 ACHAT record; on a failure every earlier write is rolled back.
   */
  method WriteCharge(db: Store, userId: nat, standId: nat, quantity: int, fault: Option<nat>)
    returns (r: Result<()>)
    requires 0 < userId <= |db.tables.users| && Priceable(db.tables, standId)
    requires db.tables.stands[standId - 1].id == standId
    modifies db
    ensures r.Err? ==> r.error == StoreFailure && db.tables == old(db.tables)
    ensures fault.None? ==> r.Ok?
    ensures r.Ok? ==> db.tables == AfterCharge(old(db.tables), userId, standId, quantity)
  {
    var stand := db.tables.stands[standId - 1];
    var stock := db.tables.stocks[FirstStock(db.tables.stocks, standId).value];
    var totalCost := stock.prixEnJetons * quantity;
    var user := db.tables.users[userId - 1];

    var begin := db.tables;
    user := user.(soldeJetons := user.soldeJetons - totalCost);
    if Fails(fault, 0) {
      db.Rollback(begin);
      return Err(StoreFailure);
    }
    db.tables := db.tables.(users := db.tables.users[userId - 1 := user]);

    stand := stand.(jetonsCollectes := stand.jetonsCollectes + totalCost);
    if Fails(fault, 1) {
      db.Rollback(begin);
      return Err(StoreFailure);
    }
    db.tables := db.tables.(stands := db.tables.stands[standId - 1 := stand]);

    var record := JetonTransaction(
      |db.tables.transactions| + 1, userId, totalCost, TransactionTypeAchat,
      PurchaseDescription(quantity, stock.nomProduit, stand.nom, stand.id), Some(stand.id), None, "");
    if Fails(fault, 2) {
      db.Rollback(begin);
      return Err(StoreFailure);
    }
    db.tables := db.tables.(transactions := db.tables.transactions + [record]);
    assert record == PurchaseRecord(begin, userId, standId, quantity);
    assert db.tables == Charge(begin, userId - 1, standId - 1, totalCost, record);
    r := Ok(());
  }

  /**
   * The transaction of PayWithJetons, once the stand, its price and the buyer's balance
   * have been checked. Writes: 0 user balance, 1 stand counter, 2 ledger record, then
   * ApplyStandEffects, 5 commit.
   */
  method ChargePurchase(db: Store, userId: nat, standId: nat, quantity: int, fault: Option<nat>)
    returns (r: Result<PayReceipt>)
    requires db.Valid()
    requires 0 < userId <= |db.tables.users| && 0 < quantity && Priceable(db.tables, standId)
    requires TotalCost(db.tables, standId, quantity) <= db.tables.users[userId - 1].soldeJetons
    modifies db
    ensures db.Valid()
    ensures r.Err? ==> db.tables == old(db.tables)
    ensures (KeepsStock(old(db.tables).stands[standId - 1].standType)
             && old(db.tables).stocks[FirstStock(old(db.tables).stocks, standId).value].quantite < quantity
             && fault.None?) ==>
              r == Err(StockUpdateFailed(InsufficientStock))
    ensures (old(db.tables).stands[standId - 1].standType == StandActivite
             && quantity <= old(db.tables).stocks[FirstStock(old(db.tables).stocks, standId).value].quantite
             && userId > |old(db.tables.parents)| && userId > |old(db.tables.eleves)| && fault.None?) ==>
              r == Err(NotParentNorStudent)
    ensures CanPurchase(old(db.tables), userId, standId, quantity) && fault.None? ==> r.Ok?
    ensures r.Ok? ==>
              && CanPurchase(old(db.tables), userId, standId, quantity)
              && db.tables == AfterPurchase(old(db.tables), userId, standId, quantity)
              && r.value == PayReceipt(db.tables.users[userId - 1].soldeJetons, TotalCost(old(db.tables), standId, quantity))
  {
    var begin := db.tables;  // tx := DB.Begin()
    var charged := WriteCharge(db, userId, standId, quantity, fault);
    if charged.Err? {
      return Err(StoreFailure);
    }

    var effects := ApplyStandEffects(db, userId, standId, quantity, fault);
    if effects.Err? {
      db.Rollback(begin);
      return Err(effects.error);
    }
    if Fails(fault, 5) {
      // a failed commit keeps nothing of the transaction
      db.Rollback(begin);
      return Err(StoreFailure);
    }
    assert db.tables == AfterPurchase(begin, userId, standId, quantity);
    PurchaseKeepsWellFormed(begin, userId, standId, quantity);
    r := Ok(PayReceipt(db.tables.users[userId - 1].soldeJetons, TotalCost(begin, standId, quantity)));
  }

  /**
   * PayWithJetons: the checks made before the transaction, in order, then ChargePurchase.
   */
  method PayWithJetons(db: Store, userId: nat, standId: nat, quantity: int, fault: Option<nat>)
    returns (r: Result<PayReceipt>)
    requires db.Valid()
    modifies db
    ensures db.Valid()
    ensures r.Err? ==> db.tables == old(db.tables)
    ensures userId == 0 || standId == 0 || quantity <= 0 ==> r == Err(InvalidRequest)
    ensures 0 < userId && 0 < quantity && standId > |old(db.tables.stands)| ==> r == Err(StandNotFound)
    ensures (0 < userId && 0 < quantity && 0 < standId <= |old(db.tables.stands)|
             && FirstStock(old(db.tables.stocks), standId).None?) ==> r == Err(NoStockForStand)
    ensures (0 < quantity && Priceable(old(db.tables), standId) && userId > |old(db.tables.users)|) ==>
              r == Err(UserNotFound)
    ensures (0 < quantity && Priceable(old(db.tables), standId) && 0 < userId <= |old(db.tables.users)|
             && old(db.tables.users)[userId - 1].soldeJetons < TotalCost(old(db.tables), standId, quantity)) ==>
              r == Err(InsufficientJetons)
    // inside the transaction, a stock shortfall aborts the whole payment
    ensures (0 < userId <= |old(db.tables.users)| && 0 < quantity && Priceable(old(db.tables), standId)
             && TotalCost(old(db.tables), standId, quantity) <= old(db.tables.users)[userId - 1].soldeJetons
             && KeepsStock(old(db.tables.stands)[standId - 1].standType)
             && old(db.tables.stocks)[FirstStock(old(db.tables.stocks), standId).value].quantite < quantity
             && fault.None?) ==>
              r == Err(StockUpdateFailed(InsufficientStock))
    // at an activity stand, the points need a parent or eleve record whose id is the user id
    ensures (0 < userId <= |old(db.tables.users)| && 0 < quantity && Priceable(old(db.tables), standId)
             && TotalCost(old(db.tables), standId, quantity) <= old(db.tables.users)[userId - 1].soldeJetons
             && old(db.tables.stands)[standId - 1].standType == StandActivite
             && quantity <= old(db.tables.stocks)[FirstStock(old(db.tables.stocks), standId).value].quantite
             && userId > |old(db.tables.parents)| && userId > |old(db.tables.eleves)|
             && fault.None?) ==>
              r == Err(NotParentNorStudent)
    ensures CanPurchase(old(db.tables), userId, standId, quantity) && fault.None? ==> r.Ok?
    ensures r.Ok? ==>
              && CanPurchase(old(db.tables), userId, standId, quantity)
              && db.tables == AfterPurchase(old(db.tables), userId, standId, quantity)
              && r.value == PayReceipt(db.tables.users[userId - 1].soldeJetons, TotalCost(old(db.tables), standId, quantity))
  {
    if userId == 0 || standId == 0 || quantity <= 0 {
      return Err(InvalidRequest);
    }
    if !(0 < standId <= |db.tables.stands|) {
      return Err(StandNotFound);
    }
    var first := FirstStock(db.tables.stocks, standId);
    if first.None? {
      return Err(NoStockForStand);
    }
    var totalCost := db.tables.stocks[first.value].prixEnJetons * quantity;
    var found := GetUserByID(db, userId);
    if found.Err? {
      return Err(UserNotFound);
    }
    if found.value.soldeJetons < totalCost {
      return Err(InsufficientJetons);
    }
    r := ChargePurchase(db, userId, standId, quantity, fault);
  }

  /** The tables after a successful jeton purchase: the balance grows, the ledger records the payment. */
  function AfterBuy(t: Tables, userId: nat, amount: int, tokenAmount: int, secret: string): Tables
    requires 0 < userId <= |t.users|
  {
    var u := userId - 1;
    t.(users := t.users[u := t.users[u].(soldeJetons := t.users[u].soldeJetons + tokenAmount)],
       transactions := t.transactions + [JetonTransaction(
         |t.transactions| + 1, userId, amount, TransactionTypeAchat,
         TokenPurchaseDescription(tokenAmount), None, None, secret)])
  }

  /**
   * Buying jetons puts `tokenAmount` new jetons in circulation, while the ACHAT total grows
   * by the money `amount`, not by the jetons credited.
   */
  lemma BuyMintsTokens(t: Tables, userId: nat, amount: int, tokenAmount: int, secret: string)
    requires 0 < userId <= |t.users|
    ensures var after := AfterBuy(t, userId, amount, tokenAmount, secret);
            && TotalTokens(after) == TotalTokens(t) + tokenAmount
            && after.users[userId - 1].soldeJetons == t.users[userId - 1].soldeJetons + tokenAmount
            && MontantOfKind(after.transactions, TransactionTypeAchat)
                 == MontantOfKind(t.transactions, TransactionTypeAchat) + amount
  {
    var after := AfterBuy(t, userId, amount, tokenAmount, secret);
    BalanceChange(t.users, userId - 1, after.users[userId - 1]);
    MontantOfKindPush(t.transactions, after.transactions[|t.transactions|], TransactionTypeAchat);
  }

  lemma BuyKeepsWellFormed(t: Tables, userId: nat, amount: int, tokenAmount: int, secret: string)
    requires WellFormed(t) && 0 < userId <= |t.users| && tokenAmount > 0
    ensures WellFormed(AfterBuy(t, userId, amount, tokenAmount, secret))
  {
  }

  /**
   * BuyJetons, after the payment intent: `intent` is the client secret the payment
   * provider returned, None when creating the intent failed.
   * Writes: 0 user balance, 1 ledger record, 2 commit.
   */
  method BuyJetons(db: Store, userId: nat, amount: int, tokenAmount: int, intent: Option<string>, fault: Option<nat>)
    returns (r: Result<BuyReceipt>)
    requires db.Valid()
    modifies db
    ensures db.Valid()
    ensures r.Err? ==> db.tables == old(db.tables)
    ensures userId == 0 || amount <= 0 || tokenAmount <= 0 ==> r == Err(InvalidRequest)
    ensures 0 < userId && 0 < amount && 0 < tokenAmount && intent.None? ==> r == Err(PaymentIntentFailed)
    ensures 0 < userId && 0 < amount && 0 < tokenAmount && intent.Some? && userId > |old(db.tables.users)| ==>
              r == Err(UserNotFound)
    ensures 0 < userId <= |old(db.tables.users)| && 0 < amount && 0 < tokenAmount && intent.Some? && fault.None? ==> r.Ok?
    ensures r.Ok? ==>
              && 0 < userId <= |old(db.tables.users)| && 0 < tokenAmount && intent.Some?
              && db.tables == AfterBuy(old(db.tables), userId, amount, tokenAmount, intent.value)
              && r.value == BuyReceipt(db.tables.users[userId - 1].soldeJetons, intent.value)
  {
    if userId == 0 || amount <= 0 || tokenAmount <= 0 {
      return Err(InvalidRequest);
    }
    if intent.None? {
      return Err(PaymentIntentFailed);
    }
    var begin := db.tables;  // tx := DB.Begin()
    if !(0 < userId <= |db.tables.users|) {
      db.Rollback(begin);
      return Err(UserNotFound);
    }
    var user := db.tables.users[userId - 1];
    user := user.(soldeJetons := user.soldeJetons + tokenAmount);
    if Fails(fault, 0) {
      db.Rollback(begin);
      return Err(StoreFailure);
    }
    db.tables := db.tables.(users := db.tables.users[userId - 1 := user]);
    var record := JetonTransaction(
      |db.tables.transactions| + 1, userId, amount, TransactionTypeAchat,
      TokenPurchaseDescription(tokenAmount), None, None, intent.value);
    if Fails(fault, 1) {
      db.Rollback(begin);
      return Err(StoreFailure);
    }
    db.tables := db.tables.(transactions := db.tables.transactions + [record]);
    if Fails(fault, 2) {
      db.Rollback(begin);
      return Err(StoreFailure);
    }
    BuyKeepsWellFormed(begin, userId, amount, tokenAmount, intent.value);
    r := Ok(BuyReceipt(user.soldeJetons, intent.value));
  }

  /** The eleves the parent record `parentId` has as `Enfants`, in table order. */
  function Enfants(eleves: seq<Eleve>, parentId: nat): seq<Eleve> {
    Filter(eleves, (e: Eleve) => e.parentId == Some(parentId))
  }

  predicate HasEnfant(enfants: seq<Eleve>, childId: nat) {
    exists j :: 0 <= j < |enfants| && enfants[j].id == childId
  }

  /** Finding the child id among the parent's Enfants is the same as the eleve pointing at the parent. */
  lemma EnfantIffLinked(eleves: seq<Eleve>, parentId: nat, childId: nat)
    requires ElevesKeyed(eleves) && 0 < childId <= |eleves|
    ensures HasEnfant(Enfants(eleves, parentId), childId) <==> eleves[childId - 1].parentId == Some(parentId)
  {
    var enfants := Enfants(eleves, parentId);
    var child := eleves[childId - 1];
    if child.parentId == Some(parentId) {
      assert child in eleves;
      assert child in enfants;
      var j :| 0 <= j < |enfants| && enfants[j] == child;
      assert enfants[j].id == childId;
    }
    if HasEnfant(enfants, childId) {
      var j :| 0 <= j < |enfants| && enfants[j].id == childId;
      assert enfants[j] in eleves;
      var m :| 0 <= m < |eleves| && eleves[m] == enfants[j];
      assert m == childId - 1;
    }
  }

  /** The loop over the parent's Enfants looking for the child's id. */
  method FindChild(enfants: seq<Eleve>, childId: nat) returns (childFound: bool)
    ensures childFound <==> HasEnfant(enfants, childId)
  {
    childFound := false;
    var i := 0;
    while i < |enfants|
      invariant 0 <= i <= |enfants|
      invariant !childFound
      invariant forall j :: 0 <= j < i ==> enfants[j].id != childId
    {
      if enfants[i].id == childId {
        childFound := true;
        break;
      }
      i := i + 1;
    }
  }

  /** The parent record of a user: the first whose userId matches (`Where("user_id = ?").First`). */
  function ParentOfUser(parents: seq<Parent>, userId: nat): Option<nat> {
    FirstIndex(parents, (p: Parent) => p.userId == userId)
  }

  /** Eleve `childId` exists and points at the parent record of user `parentId`. */
  predicate ChildOfUser(t: Tables, parentId: nat, childId: nat) {
    && 0 < childId <= |t.eleves| && ParentOfUser(t.parents, parentId).Some?
    && t.eleves[childId - 1].parentId == Some(t.parents[ParentOfUser(t.parents, parentId).value].id)
  }

  /** Everything a transfer needs: both ends exist, they are related, and the parent can afford it. */
  predicate CanTransfer(t: Tables, parentId: nat, childId: nat, amount: int) {
    && 0 < parentId <= |t.users| && 0 < amount && ChildOfUser(t, parentId, childId)
    && 0 < t.eleves[childId - 1].userId <= |t.users|
    && amount <= t.users[parentId - 1].soldeJetons
  }

  /**
   * The tables after a successful transfer. Both balances are computed from the rows as
   * read, then saved parent first: if the child's user is the parent, the second save wins.
   */
  function AfterTransfer(t: Tables, parentId: nat, childId: nat, amount: int): Tables
    requires CanTransfer(t, parentId, childId, amount)
  {
    var p, c := parentId - 1, t.eleves[childId - 1].userId - 1;
    t.(users := t.users[p := t.users[p].(soldeJetons := t.users[p].soldeJetons - amount)]
                       [c := t.users[c].(soldeJetons := t.users[c].soldeJetons + amount)],
       transactions := t.transactions + [JetonTransaction(
         |t.transactions| + 1, parentId, -amount, TransactionTypeTransfert,
         TransferDescription(amount), None, None, "")])
  }

  lemma TransferKeepsWellFormed(t: Tables, parentId: nat, childId: nat, amount: int)
    requires WellFormed(t) && CanTransfer(t, parentId, childId, amount)
    ensures WellFormed(AfterTransfer(t, parentId, childId, amount))
  {
  }

  /**
   * Between two different users a transfer moves exactly `amount` from parent to child and
   * leaves the jetons in circulation unchanged; the TRANSFERT total drops by `amount`.
   */
  lemma TransferConservesTokens(t: Tables, parentId: nat, childId: nat, amount: int)
    requires CanTransfer(t, parentId, childId, amount)
    requires t.eleves[childId - 1].userId != parentId
    ensures var after, c := AfterTransfer(t, parentId, childId, amount), t.eleves[childId - 1].userId;
            && TotalTokens(after) == TotalTokens(t)
            && after.users[parentId - 1].soldeJetons == t.users[parentId - 1].soldeJetons - amount
            && after.users[c - 1].soldeJetons == t.users[c - 1].soldeJetons + amount
            && MontantOfKind(after.transactions, TransactionTypeTransfert)
                 == MontantOfKind(t.transactions, TransactionTypeTransfert) - amount
  {
    var after := AfterTransfer(t, parentId, childId, amount);
    var p, c := parentId - 1, t.eleves[childId - 1].userId - 1;
    var mid := t.users[p := t.users[p].(soldeJetons := t.users[p].soldeJetons - amount)];
    var child := t.users[c].(soldeJetons := t.users[c].soldeJetons + amount);
    assert after.users == mid[c := child];
    assert after.stands == t.stands;
    BalanceChange(t.users, p, mid[p]);
    BalanceChange(mid, c, child);
    MontantOfKindPush(t.transactions, after.transactions[|t.transactions|], TransactionTypeTransfert);
  }

  /** When the child's user is the parent, the second save wins: `amount` jetons appear from nowhere. */
  lemma SelfTransferMints(t: Tables, parentId: nat, childId: nat, amount: int)
    requires CanTransfer(t, parentId, childId, amount)
    requires t.eleves[childId - 1].userId == parentId
    ensures var after := AfterTransfer(t, parentId, childId, amount);
            && after.users[parentId - 1].soldeJetons == t.users[parentId - 1].soldeJetons + amount
            && TotalTokens(after) == TotalTokens(t) + amount
  {
    var after := AfterTransfer(t, parentId, childId, amount);
    assert after.users == t.users[parentId - 1 := after.users[parentId - 1]];
    BalanceChange(t.users, parentId - 1, after.users[parentId - 1]);
  }

  /**
   * The writes of AttributeJetonsToChild's transaction, once every check has passed.
   * Writes: 0 parent balance, 1 child balance, 2 ledger record, 3 commit.
   */
  method SaveTransfer(db: Store, parentId: nat, childId: nat, amount: int, fault: Option<nat>)
    returns (r: Result<TransferReceipt>)
    requires db.Valid() && CanTransfer(db.tables, parentId, childId, amount)
    modifies db
    ensures db.Valid()
    ensures r.Err? ==> r.error == StoreFailure && db.tables == old(db.tables)
    ensures fault.None? ==> r.Ok?
    ensures r.Ok? ==>
              && db.tables == AfterTransfer(old(db.tables), parentId, childId, amount)
              && var c := old(db.tables).eleves[childId - 1].userId;
                 r.value == TransferReceipt(old(db.tables).users[parentId - 1].soldeJetons - amount,
                                            old(db.tables).users[c - 1].soldeJetons + amount)
  {
    var begin := db.tables;  // nothing has been written in the transaction yet
    var parent := db.tables.users[parentId - 1];
    var child := db.tables.eleves[childId - 1];
    var childUser := db.tables.users[child.userId - 1];

    parent := parent.(soldeJetons := parent.soldeJetons - amount);
    childUser := childUser.(soldeJetons := childUser.soldeJetons + amount);
    if Fails(fault, 0) {
      db.Rollback(begin);
      return Err(StoreFailure);
    }
    db.tables := db.tables.(users := db.tables.users[parentId - 1 := parent]);
    if Fails(fault, 1) {
      db.Rollback(begin);
      return Err(StoreFailure);
    }
    db.tables := db.tables.(users := db.tables.users[child.userId - 1 := childUser]);

    var record := JetonTransaction(
      |db.tables.transactions| + 1, parentId, -amount, TransactionTypeTransfert,
      TransferDescription(amount), None, None, "");
    if Fails(fault, 2) {
      db.Rollback(begin);
      return Err(StoreFailure);
    }
    db.tables := db.tables.(transactions := db.tables.transactions + [record]);
    if Fails(fault, 3) {
      db.Rollback(begin);
      return Err(StoreFailure);
    }
    assert db.tables == AfterTransfer(begin, parentId, childId, amount);
    TransferKeepsWellFormed(begin, parentId, childId, amount);
    r := Ok(TransferReceipt(parent.soldeJetons, childUser.soldeJetons));
  }

  /**
   * AttributeJetonsToChild: a parent user gives `amount` jetons to the user behind one of
   * the parent's eleves. Writes: 0 parent balance, 1 child balance, 2 ledger record, 3 commit.
   */
  method AttributeJetonsToChild(db: Store, parentId: nat, childId: nat, amount: int, fault: Option<nat>)
    returns (r: Result<TransferReceipt>)
    requires db.Valid()
    modifies db
    ensures db.Valid()
    ensures r.Err? ==> db.tables == old(db.tables)
    ensures parentId == 0 || childId == 0 || amount <= 0 ==> r == Err(InvalidRequest)
    ensures 0 < childId && 0 < amount && parentId > |old(db.tables.users)| ==> r == Err(ParentNotFound)
    ensures 0 < parentId <= |old(db.tables.users)| && 0 < amount && childId > |old(db.tables.eleves)| ==> r == Err(ChildNotFound)
    ensures (0 < parentId <= |old(db.tables.users)| && 0 < childId <= |old(db.tables.eleves)| && 0 < amount
             && ParentOfUser(old(db.tables.parents), parentId).None?) ==> r == Err(RelationshipNotFound)
    ensures (0 < parentId <= |old(db.tables.users)| && 0 < childId <= |old(db.tables.eleves)| && 0 < amount
             && ParentOfUser(old(db.tables.parents), parentId).Some? && !ChildOfUser(old(db.tables), parentId, childId)) ==>
              r == Err(ChildNotAssociated)
    ensures (0 < parentId <= |old(db.tables.users)| && 0 < amount && ChildOfUser(old(db.tables), parentId, childId)
             && !(0 < old(db.tables.eleves)[childId - 1].userId <= |old(db.tables.users)|)) ==> r == Err(ChildUserNotFound)
    ensures (0 < parentId <= |old(db.tables.users)| && 0 < amount && ChildOfUser(old(db.tables), parentId, childId)
             && 0 < old(db.tables.eleves)[childId - 1].userId <= |old(db.tables.users)|
             && old(db.tables.users)[parentId - 1].soldeJetons < amount) ==> r == Err(InsufficientJetons)
    ensures CanTransfer(old(db.tables), parentId, childId, amount) && fault.None? ==> r.Ok?
    ensures r.Ok? ==>
              && CanTransfer(old(db.tables), parentId, childId, amount)
              && db.tables == AfterTransfer(old(db.tables), parentId, childId, amount)
              && var c := old(db.tables.eleves)[childId - 1].userId;
                 r.value == TransferReceipt(old(db.tables.users)[parentId - 1].soldeJetons - amount,
                                            old(db.tables.users)[c - 1].soldeJetons + amount)
  {
    if parentId == 0 || childId == 0 || amount <= 0 {
      return Err(InvalidRequest);
    }
    var begin := db.tables;  // tx := DB.Begin()
    if !(0 < parentId <= |db.tables.users|) {
      db.Rollback(begin);
      return Err(ParentNotFound);
    }
    var parent := db.tables.users[parentId - 1];
    if !(0 < childId <= |db.tables.eleves|) {
      db.Rollback(begin);
      return Err(ChildNotFound);
    }
    var child := db.tables.eleves[childId - 1];
    var found := ParentOfUser(db.tables.parents, parentId);
    if found.None? {
      db.Rollback(begin);
      return Err(RelationshipNotFound);
    }
    var parentModel := db.tables.parents[found.value];
    var enfants := Enfants(db.tables.eleves, parentModel.id);
    var childFound := FindChild(enfants, childId);
    EnfantIffLinked(db.tables.eleves, parentModel.id, childId);
    if !childFound {
      db.Rollback(begin);
      return Err(ChildNotAssociated);
    }

    if !(0 < child.userId <= |db.tables.users|) {
      db.Rollback(begin);
      return Err(ChildUserNotFound);
    }
    if parent.soldeJetons < amount {
      db.Rollback(begin);
      return Err(InsufficientJetons);
    }
    r := SaveTransfer(db, parentId, childId, amount, fault);
  }

  /**
   * CreateJetonTransaction: appends a ledger record as given, stamped with `now`; no
   * balance moves. Write: 0 the record.
   */
  method CreateJetonTransaction(
    db: Store, description: string, kind: string, montant: int, userId: nat, standId: Option<nat>,
    now: int, fault: Option<nat>)
    returns (r: Result<JetonTransaction>)
    requires db.Valid()
    modifies db
    ensures db.Valid()
    ensures description == [] || kind == [] || userId == 0 || standId.None? ==> r == Err(InvalidRequest)
    ensures r.Err? ==> db.tables == old(db.tables)
    ensures description != [] && kind != [] && userId != 0 && standId.Some? && fault.None? ==> r.Ok?
    ensures r.Ok? ==>
              && r.value == JetonTransaction(|old(db.tables.transactions)| + 1, userId, montant, kind, description,
                                             standId, Some(now), "")
              && db.tables == old(db.tables).(transactions := old(db.tables.transactions) + [r.value])
              && TotalTokens(db.tables) == TotalTokens(old(db.tables))
  {
    if description == [] || kind == [] || userId == 0 || standId.None? {
      return Err(InvalidRequest);
    }
    var record := JetonTransaction(|db.tables.transactions| + 1, userId, montant, kind, description, standId, Some(now), "");
    if Fails(fault, 0) {
      return Err(StoreFailure);
    }
    db.tables := db.tables.(transactions := db.tables.transactions + [record]);
    r := Ok(record);
  }

  /** `SUM(CASE WHEN type = kind THEN montant ELSE 0 END)` over the ledger. */
  function MontantOfKind(txs: seq<JetonTransaction>, kind: string): int {
    if txs == [] then 0
    else MontantOfKind(txs[..|txs| - 1], kind) + (if txs[|txs| - 1].kind == kind then txs[|txs| - 1].montant else 0)
  }

  function Montants(txs: seq<JetonTransaction>): (m: seq<int>)
    ensures |m| == |txs| && forall i :: 0 <= i < |txs| ==> m[i] == txs[i].montant
  {
    seq(|txs|, i requires 0 <= i < |txs| => txs[i].montant)
  }

  /** The ledger records of one type, in ledger order. */
  function RecordsOfKind(txs: seq<JetonTransaction>, kind: string): seq<JetonTransaction> {
    Filter(txs, (x: JetonTransaction) => x.kind == kind)
  }

  /** The per-type total is the plain sum of the amounts of the records of that type. */
  lemma {:induction false} MontantOfKindIsSumOfRecords(txs: seq<JetonTransaction>, kind: string)
    ensures MontantOfKind(txs, kind) == Sum(Montants(RecordsOfKind(txs, kind)))
  {
    var p := (x: JetonTransaction) => x.kind == kind;
    if txs != [] {
      var init, last := txs[..|txs| - 1], txs[|txs| - 1];
      assert txs == init + [last];
      FilterAppend(init, last, p);
      MontantOfKindIsSumOfRecords(init, kind);
      var extra := if p(last) then [last] else [];
      assert Montants(Filter(init, p) + extra) == Montants(Filter(init, p)) + Montants(extra);
      SumAppend(Montants(Filter(init, p)), Montants(extra));
    }
  }

  /** One more record adds its amount to its own type's total only. */
  lemma MontantOfKindPush(txs: seq<JetonTransaction>, record: JetonTransaction, kind: string)
    ensures MontantOfKind(txs + [record], kind)
              == MontantOfKind(txs, kind) + (if record.kind == kind then record.montant else 0)
  {
    assert (txs + [record])[..|txs|] == txs;
  }

  /** Per-type totals add up over a concatenation of ledgers. */
  lemma {:induction false} MontantOfKindAppend(a: seq<JetonTransaction>, b: seq<JetonTransaction>, kind: string)
    ensures MontantOfKind(a + b, kind) == MontantOfKind(a, kind) + MontantOfKind(b, kind)
  {
    if b == [] {
      assert a + b == a;
    } else {
      assert (a + b)[..|a + b| - 1] == a + b[..|b| - 1];
      MontantOfKindAppend(a, b[..|b| - 1], kind);
    }
  }

  /** GetTransactionSummary; the sums of an empty ledger are NULL and cannot be scanned. */
  function GetTransactionSummary(db: Store): (r: Result<TransactionSummary>)
    reads db
    ensures r.Err? <==> db.tables.transactions == []
    ensures r.Ok? ==>
              && r.value.totalAchats == Sum(Montants(RecordsOfKind(db.tables.transactions, TransactionTypeAchat)))
              && r.value.totalUtilisations == Sum(Montants(RecordsOfKind(db.tables.transactions, TransactionTypeUtilisation)))
              && r.value.totalTransferts == Sum(Montants(RecordsOfKind(db.tables.transactions, TransactionTypeTransfert)))
  {
    MontantOfKindIsSumOfRecords(db.tables.transactions, TransactionTypeAchat);
    MontantOfKindIsSumOfRecords(db.tables.transactions, TransactionTypeUtilisation);
    MontantOfKindIsSumOfRecords(db.tables.transactions, TransactionTypeTransfert);
    if db.tables.transactions == [] then Err(EmptyLedger)
    else Ok(TransactionSummary(
      MontantOfKind(db.tables.transactions, TransactionTypeAchat),
      MontantOfKind(db.tables.transactions, TransactionTypeUtilisation),
      MontantOfKind(db.tables.transactions, TransactionTypeTransfert)))
  }
}
