/** The service layer shared by the handlers: stock decrement, points credit, user lookup. */
module JetonsServices {
  import opened Common
  import opened Models
  import opened Database

  predicate OfStand(standId: nat, s: Stock) {
    s.standId == standId
  }

  /** Position of `stand.Stocks[0]`: the stand's first stock line in table order. */
  function FirstStock(stocks: seq<Stock>, standId: nat): Option<nat> {
    FirstIndex(stocks, s => OfStand(standId, s))
  }

  /**
   * services.UpdateStandStock: within the caller's transaction, adds `change` to the
   * quantity of the stand's first stock line, refusing a negative result.
   * `saveFails` is the store's answer to the one write.
   */
  method UpdateStandStock(db: Store, standId: nat, change: int, saveFails: bool) returns (r: Result<()>)
    modifies db
    ensures r.Err? ==> db.tables == old(db.tables)
    ensures !(0 < standId <= |old(db.tables.stands)|) ==> r == Err(StandNotFound)
    ensures 0 < standId <= |old(db.tables.stands)| && FirstStock(old(db.tables.stocks), standId).None? ==>
              r == Err(NoStockForStand)
    ensures 0 < standId <= |old(db.tables.stands)| && FirstStock(old(db.tables.stocks), standId).Some? ==>
              var k := FirstStock(old(db.tables.stocks), standId).value;
              var q := old(db.tables.stocks)[k].quantite + change;
              && (q < 0 ==> r == Err(InsufficientStock))
              && (q >= 0 && saveFails ==> r == Err(StoreFailure))
              && (q >= 0 && !saveFails ==> r == Ok(()))
    ensures r.Ok? ==>
              && 0 < standId <= |old(db.tables.stands)| && FirstStock(old(db.tables.stocks), standId).Some?
              && var k := FirstStock(old(db.tables.stocks), standId).value;
                 && db.tables == old(db.tables).(stocks := old(db.tables.stocks)[k := old(db.tables.stocks)[k].(
                      quantite := old(db.tables.stocks)[k].quantite + change)])
                 && db.tables.stocks[k].quantite >= 0
  {
    if !(0 < standId <= |db.tables.stands|) {
      return Err(StandNotFound);
    }
    var first := FirstStock(db.tables.stocks, standId);
    if first.None? {
      return Err(NoStockForStand);
    }
    var k := first.value;
    var newQuantity := db.tables.stocks[k].quantite + change;
    if newQuantity < 0 {
      return Err(InsufficientStock);
    }
    if saveFails {
      return Err(StoreFailure);
    }
    db.tables := db.tables.(stocks := db.tables.stocks[k := db.tables.stocks[k].(quantite := newQuantity)]);
    r := Ok(());
  }

  /** services.AttributePointsToUser: adds `points` to an eleve's accumulated points. */
  method AttributePointsToUser(db: Store, eleveId: nat, points: int, saveFails: bool) returns (r: Result<()>)
    modifies db
    ensures r.Err? ==> db.tables == old(db.tables)
    ensures !(0 < eleveId <= |old(db.tables.eleves)|) ==> r == Err(UserNotFound)
    ensures 0 < eleveId <= |old(db.tables.eleves)| && saveFails ==> r == Err(StoreFailure)
    ensures 0 < eleveId <= |old(db.tables.eleves)| && !saveFails ==>
              && r == Ok(())
              && var e := eleveId - 1;
                 db.tables == old(db.tables).(eleves := old(db.tables.eleves)[e := old(db.tables.eleves)[e].(
                   pointsAccumules := old(db.tables.eleves)[e].pointsAccumules + points)])
  {
    if !(0 < eleveId <= |db.tables.eleves|) {
      return Err(UserNotFound);
    }
    if saveFails {
      return Err(StoreFailure);
    }
    var e := eleveId - 1;
    db.tables := db.tables.(eleves := db.tables.eleves[e := db.tables.eleves[e].(pointsAccumules := db.tables.eleves[e].pointsAccumules + points)]);
    r := Ok(());
  }

  /** services.GetUserByID: the user whose id is `userId`, or "user not found". */
  function GetUserByID(db: Store, userId: nat): (r: Result<User>)
    reads db
    requires db.Valid()
    ensures r.Ok? <==> exists u :: u in db.tables.users && u.id == userId
    ensures r.Ok? ==> r.value in db.tables.users && r.value.id == userId
    ensures r.Err? ==> r.error == UserNotFound
  {
    if 0 < userId <= |db.tables.users| then Ok(db.tables.users[userId - 1]) else Err(UserNotFound)
  }
}
